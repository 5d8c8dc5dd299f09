/**
 A parser that undoes stableStringify, and what follows: it is canonical and injective.
 */
module JsonParser {
  import opened JsonText
  import opened StableHash

  // --- The parser ------------------------------------------------------------------------

  /** How many units at the start of the text can belong to a number. */
  function NumberLength(t: Text): (n: nat)
    ensures n <= |t| && forall i :: 0 <= i < n ==> IsNumberUnit(t[i])
    ensures n < |t| ==> !IsNumberUnit(t[n])
  {
    if t == [] || !IsNumberUnit(t[0]) then 0 else 1 + NumberLength(t[1..])
  }

  function ParseValue(t: Text): (p: Parsed<Json>)
    ensures p.Got? ==> |p.rest| < |t|
    decreases |t|, 0
  {
    if t == [] then Failed
    else if t[0] == QUOTE then
      match ParseString(t)
      case Failed => Failed
      case Got(s, rest) => Got(Str(s), rest)
    else if t[0] == OPEN_BRACKET then
      if |t| >= 2 && t[1] == CLOSE_BRACKET then Got(Arr([]), t[2..])
      else
        match ParseItems(t[1..])
        case Failed => Failed
        case Got(items, rest) => Got(Arr(items), rest)
    else if t[0] == OPEN_BRACE then
      if |t| >= 2 && t[1] == CLOSE_BRACE then Got(Obj([]), t[2..])
      else
        match ParseMembers(t[1..])
        case Failed => Failed
        case Got(members, rest) => Got(Obj(members), rest)
    else if NULL <= t then Got(Null, t[4..])
    else if TRUE <= t then Got(Bool(true), t[4..])
    else if FALSE <= t then Got(Bool(false), t[5..])
    else if NumberLength(t) == 0 then Failed
    else Got(Number(t[..NumberLength(t)]), t[NumberLength(t)..])
  }

  /** The items up to the closing bracket; there is at least one. */
  function ParseItems(t: Text): (p: Parsed<seq<Json>>)
    ensures p.Got? ==> |p.rest| < |t|
    decreases |t|, 1
  {
    match ParseValue(t)
    case Failed => Failed
    case Got(item, rest) =>
      if rest == [] then Failed
      else if rest[0] == CLOSE_BRACKET then Got([item], rest[1..])
      else if rest[0] != COMMA then Failed
      else
        match ParseItems(rest[1..])
        case Failed => Failed
        case Got(items, end) => Got([item] + items, end)
  }

  /** The members up to the closing brace; there is at least one. */
  function ParseMembers(t: Text): (p: Parsed<seq<Member>>)
    ensures p.Got? ==> |p.rest| < |t|
    decreases |t|, 1
  {
    match ParseString(t)
    case Failed => Failed
    case Got(key, middle) =>
      if middle == [] || middle[0] != COLON then Failed
      else
        match ParseValue(middle[1..])
        case Failed => Failed
        case Got(value, rest) =>
          if rest == [] then Failed
          else if rest[0] == CLOSE_BRACE then Got([Member(key, value)], rest[1..])
          else if rest[0] != COMMA then Failed
          else
            match ParseMembers(rest[1..])
            case Failed => Failed
            case Got(members, end) => Got([Member(key, value)] + members, end)
  }

  // --- Values in canonical form ----------------------------------------------------------

  /** The value with all keys in order, and null for what is not finite. */
  function Canon(v: Json): Json
    decreases v, 1, 0
  {
    match v
    case NotFinite => Null
    case Arr(items) => Arr(CanonItems(v, 0))
    case Obj(members) => Obj(CanonMembers(v, SortKeys(Keys(members))))
    case _ => v
  }

  function CanonItems(v: Json, from: nat): (items: seq<Json>)
    requires v.Arr? && from <= |v.items|
    ensures |items| == |v.items| - from
    ensures forall i :: 0 <= i < |items| ==> items[i] == Canon(v.items[from + i])
    decreases v, 0, |v.items| - from
  {
    if from == |v.items| then [] else [Canon(v.items[from])] + CanonItems(v, from + 1)
  }

  function CanonMembers(v: Json, keys: seq<Text>): (members: seq<Member>)
    requires v.Obj? && forall k :: k in keys ==> k in Keys(v.members)
    ensures |members| == |keys|
    ensures forall i :: 0 <= i < |keys| ==> members[i] == Member(keys[i], Canon(Lookup(v.members, keys[i])))
    decreases v, 0, |keys|
  {
    if keys == [] then []
    else [Member(keys[0], Canon(Lookup(v.members, keys[0])))] + CanonMembers(v, keys[1..])
  }

  // --- The parser undoes the printer -----------------------------------------------------

  /** Text after which a number has ended. */
  predicate EndsNumber(more: Text) {
    more == [] || !IsNumberUnit(more[0])
  }

  lemma {:induction false} NumberEnds(t: Text, more: Text)
    requires (forall i :: 0 <= i < |t| ==> IsNumberUnit(t[i])) && EndsNumber(more)
    ensures NumberLength(t + more) == |t|
  {
    if t == [] {
      assert t + more == more;
    } else {
      assert (t + more)[1..] == t[1..] + more;
      NumberEnds(t[1..], more);
    }
  }

  lemma NumberIsUndone(text: Text, more: Text)
    requires IsNumberText(text) && EndsNumber(more)
    ensures ParseValue(text + more) == Got(Number(text), more)
  {
    NumberEnds(text, more);
    var t := text + more;
    assert t[0] == text[0] && t[..|text|] == text && t[|text|..] == more;
  }

  lemma WordsAreUndone(more: Text)
    ensures ParseValue(NULL + more) == Got(Null, more)
    ensures ParseValue(TRUE + more) == Got(Bool(true), more)
    ensures ParseValue(FALSE + more) == Got(Bool(false), more)
  {
  }

  lemma StrIsUndone(s: Text, more: Text)
    ensures ParseValue(PrintString(s) + more) == Got(Str(s), more)
  {
    StringIsUndone(s, more);
    assert (PrintString(s) + more)[0] == QUOTE;
  }

  lemma BracketedText(open: CodeUnit, body: Text, close: CodeUnit, more: Text)
    ensures [open] + body + [close] + more == [open] + (body + ([close] + more))
  {
  }

  lemma ArrIsUndone(v: Json, body: Text, items: seq<Json>, more: Text)
    requires body != [] && body[0] != CLOSE_BRACKET
    requires ParseItems(body + ([CLOSE_BRACKET] + more)) == Got(items, more)
    ensures ParseValue([OPEN_BRACKET] + body + [CLOSE_BRACKET] + more) == Got(Arr(items), more)
  {
    var tail := body + ([CLOSE_BRACKET] + more);
    BracketedText(OPEN_BRACKET, body, CLOSE_BRACKET, more);
    var t := [OPEN_BRACKET] + tail;
    assert t[0] == OPEN_BRACKET && t[1] == body[0] && t[1..] == tail;
    assert ParseItems(t[1..]) == Got(items, more);
  }

  lemma {:induction false} ObjIsUndone(body: Text, members: seq<Member>, more: Text)
    requires body != [] && body[0] == QUOTE
    requires ParseMembers(body + ([CLOSE_BRACE] + more)) == Got(members, more)
    ensures ParseValue([OPEN_BRACE] + body + [CLOSE_BRACE] + more) == Got(Obj(members), more)
  {
    var tail := body + ([CLOSE_BRACE] + more);
    BracketedText(OPEN_BRACE, body, CLOSE_BRACE, more);
    var t := [OPEN_BRACE] + tail;
    assert t[0] == OPEN_BRACE && t[1] == body[0] && t[1..] == tail;
    assert ParseMembers(t[1..]) == Got(members, more);
  }

  lemma EmptyIsUndone(more: Text)
    ensures ParseValue([OPEN_BRACKET] + [] + [CLOSE_BRACKET] + more) == Got(Arr([]), more)
    ensures ParseValue([OPEN_BRACE] + [] + [CLOSE_BRACE] + more) == Got(Obj([]), more)
  {
  }

  /** Whatever follows, as long as it does not go on with a number, the value is read back. */
  lemma {:induction false} ValueIsUndone(v: Json, more: Text)
    requires IsValue(v) && EndsNumber(more)
    ensures ParseValue(Stringify(v) + more) == Got(Canon(v), more)
    decreases v, 1, 0
  {
    match v {
      case Null => WordsAreUndone(more);
      case NotFinite => WordsAreUndone(more);
      case Bool(_) => WordsAreUndone(more);
      case Number(text) => NumberIsUndone(text, more);
      case Str(s) => StrIsUndone(s, more);
      case Arr(items) =>
        if items == [] {
          EmptyIsUndone(more);
        } else {
          ItemsAreUndone(v, 0, more);
          ArrIsUndone(v, StringifyItems(v, 0), CanonItems(v, 0), more);
        }
      case Obj(members) =>
        var keys := SortKeys(Keys(members));
        if keys == [] {
          EmptyIsUndone(more);
        } else {
          MembersAreUndone(v, keys, more);
          assert PrintString(keys[0])[0] == QUOTE;
          ObjIsUndone(StringifyMembers(v, keys), CanonMembers(v, keys), more);
        }
    }
  }

  lemma Joined(text: Text, rest: Text, end: Text)
    ensures text + [COMMA] + rest + end == text + ([COMMA] + (rest + end))
  {
  }

  lemma {:induction false} ItemsAreUndone(v: Json, from: nat, more: Text)
    requires v.Arr? && IsValue(v) && from < |v.items|
    ensures ParseItems(StringifyItems(v, from) + ([CLOSE_BRACKET] + more)) == Got(CanonItems(v, from), more)
    decreases v, 0, |v.items| - from
  {
    var item := v.items[from];
    if from == |v.items| - 1 {
      ValueIsUndone(item, [CLOSE_BRACKET] + more);
      assert CanonItems(v, from) == [Canon(item)];
    } else {
      var tail := StringifyItems(v, from + 1) + ([CLOSE_BRACKET] + more);
      ItemsAreUndone(v, from + 1, more);
      ValueIsUndone(item, [COMMA] + tail);
      Joined(Stringify(item), StringifyItems(v, from + 1), [CLOSE_BRACKET] + more);
    }
  }

  lemma MemberStart(key: Text, text: Text, more: Text)
    ensures ParseString(PrintString(key) + [COLON] + text + more) == Got(key, [COLON] + (text + more))
    ensures ([COLON] + (text + more))[1..] == text + more
  {
    StringIsUndone(key, [COLON] + (text + more));
    assert PrintString(key) + [COLON] + text + more == PrintString(key) + ([COLON] + (text + more));
  }

  lemma LastMember(key: Text, text: Text, value: Json, more: Text)
    requires ParseValue(text + ([CLOSE_BRACE] + more)) == Got(value, [CLOSE_BRACE] + more)
    ensures ParseMembers(PrintString(key) + [COLON] + text + ([CLOSE_BRACE] + more)) == Got([Member(key, value)], more)
  {
    MemberStart(key, text, [CLOSE_BRACE] + more);
    assert ([CLOSE_BRACE] + more)[1..] == more;
  }

  lemma NextMember(key: Text, text: Text, value: Json, tail: Text, members: seq<Member>, more: Text)
    requires ParseValue(text + ([COMMA] + tail)) == Got(value, [COMMA] + tail)
    requires ParseMembers(tail) == Got(members, more)
    ensures ParseMembers(PrintString(key) + [COLON] + text + ([COMMA] + tail)) == Got([Member(key, value)] + members, more)
  {
    MemberStart(key, text, [COMMA] + tail);
    assert ([COMMA] + tail)[1..] == tail;
  }

  lemma {:induction false} MembersAreUndone(v: Json, keys: seq<Text>, more: Text)
    requires v.Obj? && IsValue(v) && keys != [] && forall k :: k in keys ==> k in Keys(v.members)
    ensures ParseMembers(StringifyMembers(v, keys) + ([CLOSE_BRACE] + more)) == Got(CanonMembers(v, keys), more)
    decreases v, 0, |keys|
  {
    var value := Lookup(v.members, keys[0]);
    var text := Stringify(value);
    if |keys| == 1 {
      ValueIsUndone(value, [CLOSE_BRACE] + more);
      LastMember(keys[0], text, Canon(value), more);
      assert CanonMembers(v, keys) == [Member(keys[0], Canon(value))];
    } else {
      var tail := StringifyMembers(v, keys[1..]) + ([CLOSE_BRACE] + more);
      MembersAreUndone(v, keys[1..], more);
      ValueIsUndone(value, [COMMA] + tail);
      NextMember(keys[0], text, Canon(value), tail, CanonMembers(v, keys[1..]), more);
      Joined(PrintString(keys[0]) + [COLON] + text, StringifyMembers(v, keys[1..]), [CLOSE_BRACE] + more);
    }
  }

  /** Parsing the printed value gives its canonical form and leaves nothing. */
  lemma ParserUndoesStringify(v: Json)
    requires IsValue(v)
    ensures ParseValue(Stringify(v)) == Got(Canon(v), [])
  {
    ValueIsUndone(v, []);
    assert Stringify(v) + [] == Stringify(v);
  }
}
