/** The error page: a status code, a title chosen from it, and a message. */
module Errors {
  import opened Wrappers
  import opened Text

  const StatusBadRequest := 400
  const StatusNotFound := 404
  const StatusMethodNotAllowed := 405
  const StatusInternalServerError := 500

  /** What the error template shows. */
  datatype ErrorData = ErrorData(code: int, title: string, message: string)

  /** The title switch: three fixed titles, and "Error <code>" for every other code. */
  function Title(code: int): string
  {
    match code
    case 400 => "400 — Bad Request"
    case 404 => "404 — Not Found"
    case 500 => "500 — Internal Server Error"
    case _ => "Error " + DecimalFormat(code)
  }

  /** The error page for a status code and a message. */
  function ErrorPage(code: int, message: string): ErrorData
  {
    ErrorData(code, Title(code), message)
  }

  /**
   * A code without a fixed title gets "Error " followed by the code in
   * decimal, and the code can be read back from the title.
   */
  lemma GenericTitle(code: int)
    requires code !in {400, 404, 500}
    ensures |Title(code)| > 6 && Title(code)[..6] == "Error "
    ensures ParseDecimal(Title(code)[6..]) == Some(code)
  {
    assert Title(code)[6..] == DecimalFormat(code);
    FormatParseRoundTrip(code);
  }

  /** Different codes never share a title. */
  lemma TitleDeterminesCode(a: int, b: int)
    ensures Title(a) == Title(b) <==> a == b
  {
    if a !in {400, 404, 500} {
      GenericTitle(a);
    }
    if b !in {400, 404, 500} {
      GenericTitle(b);
    }
    if Title(a) == Title(b) && a !in {400, 404, 500} && b !in {400, 404, 500} {
      DecimalFormatInjective(a, b);
    }
  }

  /** The method-not-allowed page has no fixed title: it reads "Error 405". */
  lemma MethodNotAllowedTitle()
    ensures Title(StatusMethodNotAllowed) == "Error 405"
  {
  }
}
