/** The string operations the converters use on tensor names. */
module Strings {

  /** Python's `text.replace(old, new)`: left to right, without overlap. */
  function ReplaceAll(text: string, old_: string, new_: string): string
    requires old_ != []
  {
    if |text| < |old_| then text
    else if text[..|old_|] == old_ then new_ + ReplaceAll(text[|old_|..], old_, new_)
    else [text[0]] + ReplaceAll(text[1..], old_, new_)
  }

  predicate EndsWith(s: string, suffix: string) {
    |suffix| <= |s| && s[|s| - |suffix|..] == suffix
  }

  function Stem(s: string, suffix: string): string
    requires EndsWith(s, suffix)
  {
    s[..|s| - |suffix|]
  }
}
