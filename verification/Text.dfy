/** strings.TrimSpace and strings.ToUpper, as far as the services depend on them. */
module Text {
  /** The characters that Unicode calls white space. */
  predicate IsSpace(c: char) {
    || c in {'\t', '\n', '\U{B}', '\U{C}', '\r', ' ', '\U{85}', '\U{A0}', '\U{1680}', '\U{2028}', '\U{2029}', '\U{202F}'}
    || '\U{2000}' <= c <= '\U{200A}'
    || c in {'\U{205F}', '\U{3000}'}
  }

  function TrimLeft(s: string): (t: string)
    ensures t == "" || !IsSpace(t[0])
  {
    if s != "" && IsSpace(s[0]) then TrimLeft(s[1..]) else s
  }

  function TrimRight(s: string): (t: string)
    ensures t == "" || !IsSpace(t[|t| - 1])
    ensures t == "" || (s != "" && t[0] == s[0])
  {
    if s != "" && IsSpace(s[|s| - 1]) then TrimRight(s[..|s| - 1]) else s
  }

  function TrimSpace(s: string): string {
    TrimRight(TrimLeft(s))
  }

  predicate IsTrimmed(s: string) {
    s != "" ==> !IsSpace(s[0]) && !IsSpace(s[|s| - 1])
  }

  /** Trimming leaves exactly the trimmed strings alone, and always gives one. */
  lemma TrimSpaceFixes(s: string)
    ensures IsTrimmed(TrimSpace(s))
    ensures TrimSpace(s) == s <==> IsTrimmed(s)
  {
  }

  /** Two letters outside ASCII have an upper case within it; the others keep out of it. */
  function UpperChar(c: char): char {
    if 'a' <= c <= 'z' then ((c as int) - 32) as char
    else if c == '\U{131}' then 'I'
    else if c == '\U{17F}' then 'S'
    else c
  }

  function ToUpper(s: string): (upper: string)
    ensures |upper| == |s|
    ensures forall i :: 0 <= i < |s| ==> upper[i] == UpperChar(s[i])
  {
    if s == "" then "" else [UpperChar(s[0])] + ToUpper(s[1..])
  }

  lemma UpperCaseStays(s: string)
    requires forall i :: 0 <= i < |s| ==> 'A' <= s[i] <= 'Z'
    ensures ToUpper(s) == s
  {
    var upper := ToUpper(s);
    assert forall i :: 0 <= i < |s| ==> upper[i] == s[i];
  }

  /** Where a text next contains a character, from an index on; its length if nowhere. */
  function IndexOf(s: string, c: char, from: nat): (i: nat)
    requires from <= |s|
    ensures from <= i <= |s| && (i < |s| ==> s[i] == c) && forall k :: from <= k < i ==> s[k] != c
    decreases |s| - from
  {
    if from == |s| || s[from] == c then from else IndexOf(s, c, from + 1)
  }

  /** The parts of a text between the occurrences of a character. */
  function SplitBy(s: string, c: char): (parts: seq<string>)
    ensures parts != []
    decreases |s|
  {
    var i := IndexOf(s, c, 0);
    if i == |s| then [s] else [s[..i]] + SplitBy(s[i + 1..], c)
  }

  function Join(parts: seq<string>, c: char): string {
    if parts == [] then ""
    else if |parts| == 1 then parts[0]
    else parts[0] + [c] + Join(parts[1..], c)
  }

  lemma IndexOfFirst(head: string, c: char, tail: string)
    requires c !in head
    ensures IndexOf(head + [c] + tail, c, 0) == |head|
    ensures IndexOf(head, c, 0) == |head|
  {
    var s := head + [c] + tail;
    assert s[|head|] == c;
    assert forall k :: 0 <= k < |head| ==> s[k] == head[k] && head[k] in head;
  }

  /** Splitting undoes joining parts that do not contain the character. */
  lemma {:induction false} SplitUndoesJoin(parts: seq<string>, c: char)
    requires parts != [] && forall i :: 0 <= i < |parts| ==> c !in parts[i]
    ensures SplitBy(Join(parts, c), c) == parts
  {
    if |parts| == 1 {
      IndexOfFirst(parts[0], c, "");
    } else {
      SplitUndoesJoin(parts[1..], c);
      var tail := Join(parts[1..], c);
      IndexOfFirst(parts[0], c, tail);
      var s := parts[0] + [c] + tail;
      assert s[..|parts[0]|] == parts[0] && s[|parts[0]| + 1..] == tail;
      assert [parts[0]] + parts[1..] == parts;
    }
  }
}
