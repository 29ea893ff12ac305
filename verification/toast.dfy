/**
 * handlers/toast/toast.go: the toast notifications sent to the browser in
 * the `HX-Trigger` header. The helpers take Go's variadic `customWrapper
 * ...string`, modelled as a sequence of strings.
 */
module Toast {

  const Info: string := "info"
  const Success: string := "success"
  const Warning: string := "warning"
  const Danger: string := "danger"

  datatype Toast = Toast(level: string, title: string, message: string, customWrapper: string)

  /** `New`: level, title and message copied; the wrapper is the first variadic argument, if any. */
  function New(level: string, title: string, message: string, customWrapper: seq<string>): (t: Toast)
    ensures t.level == level && t.title == title && t.message == message
    ensures |customWrapper| > 0 ==> t.customWrapper == customWrapper[0]
    ensures |customWrapper| == 0 ==> t.customWrapper == ""
  {
    var t := Toast(level, title, message, "");
    if |customWrapper| > 0 then t.(customWrapper := customWrapper[0]) else t
  }

  /** Arguments after the first variadic one make no difference. */
  lemma NewIgnoresExtraWrappers(level: string, title: string, message: string, first: string, rest: seq<string>)
    ensures New(level, title, message, [first] + rest) == New(level, title, message, [first])
  {
  }

  /** `Info`: an info toast; the wrapper passed in is not forwarded. */
  function InfoToast(title: string, message: string, customWrapper: seq<string>): (t: Toast)
    ensures t == Toast(Info, title, message, "")
  {
    New(Info, title, message, [])
  }

  /**
   * `Success`, `Warning` and `Danger` set the header from a toast of their
   * level; the toast they send is the result here. None forwards the wrapper.
   */
  function SuccessToast(title: string, message: string, customWrapper: seq<string>): (t: Toast)
    ensures t == Toast(Success, title, message, "")
  {
    New(Success, title, message, [])
  }

  function WarningToast(title: string, message: string, customWrapper: seq<string>): (t: Toast)
    ensures t == Toast(Warning, title, message, "")
  {
    New(Warning, title, message, [])
  }

  function DangerToast(title: string, message: string, customWrapper: seq<string>): (t: Toast)
    ensures t == Toast(Danger, title, message, "")
  {
    New(Danger, title, message, [])
  }

  /** The four helpers use four different levels, and the wrapper never reaches the toast. */
  lemma HelpersDiffer(title: string, message: string, w1: seq<string>, w2: seq<string>)
    ensures InfoToast(title, message, w1) == InfoToast(title, message, w2)
    ensures |{InfoToast(title, message, w1).level, SuccessToast(title, message, w1).level,
              WarningToast(title, message, w1).level, DangerToast(title, message, w1).level}| == 4
  {
  }
}
