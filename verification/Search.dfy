/** Text preparation for the search index (`segment` in
  `tree_agent/server/repositories/search.py`). */
module Search {
  import opened Naming

  const MAX_INDEXED_CHARS: nat := 200000

  /** The character ranges that need one token per character. */
  predicate IsCjk(c: char) {
    '\U{2E80}' <= c <= '\U{2FFF}' || '\U{3040}' <= c <= '\U{30FF}' || '\U{3400}' <= c <= '\U{4DBF}'
    || '\U{4E00}' <= c <= '\U{9FFF}' || '\U{F900}' <= c <= '\U{FAFF}' || '\U{AC00}' <= c <= '\U{D7AF}'
    || '\U{FF66}' <= c <= '\U{FF9F}'
  }

  /** A space between every two adjacent CJK characters. */
  function Spaced(text: string): string {
    if |text| < 2 then text
    else [text[0]] + (if IsCjk(text[0]) && IsCjk(text[1]) then " " else "") + Spaced(text[1..])
  }

  function Segment(text: string): string {
    Spaced(if |text| <= MAX_INDEXED_CHARS then text else text[..MAX_INDEXED_CHARS])
  }

  /** `not content.strip()`: such a message gets no index row. */
  predicate Blank(text: string) { AllSpace(text) }
}
