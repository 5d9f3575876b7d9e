/** What the screens hand to the toast layer and to the router. */
module Ui {
  import opened Common

  /** `Toast.show({ type, text1, text2 })`. */
  datatype Toast = Toast(kind: string, text1: string, text2: string)

  function ErrorToast(text1: string, text2: string): Toast { Toast("error", text1, text2) }
  function SuccessToast(text1: string, text2: string): Toast { Toast("success", text1, text2) }

  /** A route parameter: the app passes numbers and strings, and passes a
      null or undefined field through as it is (`Missing`). */
  datatype Param = Text(text: string) | Number(n: int) | Missing

  /** A nullable string field as a route parameter. */
  function TextOrMissing(s: Option<string>): (p: Param)
    ensures p.Text? <==> s.Some?
    ensures s.Some? ==> p.text == s.value
  {
    if s.Some? then Text(s.value) else Missing
  }

  /** `router.push({ pathname, params })` (or `router.replace`). */
  datatype Navigation = Navigation(pathname: string, params: map<string, Param>)
}
