/** `translateText`: one request to a web translation service per call, the
    original text when the request or the reading of its reply throws. */
module Translator {
  import opened Wrappers

  /** The translation service as the widget sees it: the outcome of its
      `call`-th request to translate `text` into `targetLang`, `Some` of the
      translation, or `None` when the request or the reading of its reply
      threw. Numbering the calls lets one text fare differently on two
      requests. */
  type Service = (nat, string, string) -> Option<string>

  /** `translateText(text, targetLang)` made as the `call`-th request. */
  function TranslateText(service: Service, call: nat, text: string, targetLang: string): (r: string)
    ensures service(call, text, targetLang).Some? ==> r == service(call, text, targetLang).value
    ensures service(call, text, targetLang).None? ==> r == text
  {
    match service(call, text, targetLang)
    case Some(translation) => translation
    case None => text
  }
}
