/** Slash-separated paths, as every component of the file services reads them. */
module Paths {
  /** The bytes of a character in UTF-8. */
  function CharBytes(c: char): nat {
    if c as int < 0x80 then 1 else if c as int < 0x800 then 2 else if c as int < 0x10000 then 3 else 4
  }

  /** The length of a text in UTF-8. */
  function Utf8Length(text: string): nat {
    if text == "" then 0 else CharBytes(text[0]) + Utf8Length(text[1..])
  }

  predicate ForbiddenIn(part: string) {
    '\\' in part || '\0' in part || '\r' in part || '\n' in part
  }

  /** The parts between the slashes. */
  function Split(path: string): (parts: seq<string>)
    ensures parts != []
  {
    if path == "" then [""]
    else
      var last, front := path[|path| - 1], Split(path[..|path| - 1]);
      if last == '/' then front + [""] else front[|front| - 1 := front[|front| - 1] + [last]]
  }

  predicate ValidRelative(relative: string) {
    && relative != "" && Utf8Length(relative) <= 4096
    && forall part :: part in Split(relative) ==> part != "" && part != "." && part != ".." && !ForbiddenIn(part)
  }
}
