/** The bracket scanners that cut a JSON array or object out of a model's prose
    (internal/agent/orchestrated.go, extractOutermostArray; internal/agent/thinking.go,
    salvageNextAction). */
module JsonScan {
  import opened Base

  // ---- The scanners ----

  /** What one scanner counts, and whether a backslash escapes outside strings too. */
  datatype Kind = Kind(open: char, close: char, escapesAnywhere: bool)

  const ARRAYS := Kind('[', ']', false)
  const OBJECTS := Kind('{', '}', true)

  datatype Scanner = Scanner(depth: int, inString: bool, escaped: bool)

  /** c brings the depth down to zero. */
  predicate Closes(k: Kind, sc: Scanner, c: char) {
    !sc.escaped && !sc.inString && c == k.close && c != '\\' && c != '"' && c != k.open && sc.depth == 1
  }

  function Next(k: Kind, sc: Scanner, c: char): Scanner {
    if sc.escaped then sc.(escaped := false)
    else if c == '\\' && (sc.inString || k.escapesAnywhere) then sc.(escaped := true)
    else if c == '"' then sc.(inString := !sc.inString)
    else if sc.inString then sc
    else if c == k.open then sc.(depth := sc.depth + 1)
    else if c == k.close then sc.(depth := sc.depth - 1)
    else sc
  }

  /** How many characters of text the scan takes up to and including the closing bracket;
      -1 when it runs off the end. */
  function ScanLength(k: Kind, text: string, sc: Scanner): int {
    if text == "" then -1
    else if Closes(k, sc, text[0]) then 1
    else Shift(1, ScanLength(k, text[1..], Next(k, sc, text[0])))
  }

  function Shift(n: int, r: int): int {
    if r < 0 then -1 else r + n
  }

  /** strings.Index: the first occurrence at or after i, or -1. */
  function IndexFrom(s: string, needle: string, i: nat): (r: int)
    ensures -1 <= r <= |s|
    ensures r >= 0 ==> i <= r && OccursAt(s, needle, r) && forall j | i <= j < r :: !OccursAt(s, needle, j)
    ensures r < 0 ==> forall j | i <= j :: !OccursAt(s, needle, j)
    decreases |s| - i
  {
    if i + |needle| > |s| then -1
    else if OccursAt(s, needle, i) then i
    else IndexFrom(s, needle, i + 1)
  }

  /** The bracketed block that starts at the given position, or nothing. */
  function BlockAt(k: Kind, input: string, start: int): (block: string)
    requires start <= |input|
    ensures start >= 0 ==> block <= input[start..]
  {
    if start < 0 then ""
    else
      var n := ScanLength(k, input[start..], Scanner(0, false, false));
      if n < 0 || n > |input| - start then "" else input[start..start + n]
  }

  lemma {:induction false} ScanWithin(k: Kind, text: string, sc: Scanner)
    ensures ScanLength(k, text, sc) <= |text|
  {
    if text != "" && !Closes(k, sc, text[0]) {
      ScanWithin(k, text[1..], Next(k, sc, text[0]));
    }
  }

  /** The counting loop shared by both scanners. */
  method ScanBlock(k: Kind, input: string, start: nat) returns (block: string)
    requires start < |input| && k in {ARRAYS, OBJECTS}
    ensures block == BlockAt(k, input, start)
  {
    var depth, inString, escaped := 0, false, false;
    ghost var total := ScanLength(k, input[start..], Scanner(0, false, false));
    ScanWithin(k, input[start..], Scanner(0, false, false));
    for i := start to |input|
      invariant total == Shift(i - start, ScanLength(k, input[i..], Scanner(depth, inString, escaped)))
    {
      var c := input[i];
      assert input[i..][0] == c && input[i..][1..] == input[i + 1..];
      if escaped {
        escaped := false;
        continue;
      }
      if c == '\\' && (inString || k.escapesAnywhere) {
        escaped := true;
        continue;
      }
      if c == '"' {
        inString := !inString;
        continue;
      }
      if inString {
        continue;
      }
      if c == k.open {
        depth := depth + 1;
      } else if c == k.close {
        depth := depth - 1;
        if depth == 0 {
          return input[start..i + 1];
        }
      }
    }
    return "";
  }

  const NEXT_ACTION := "\"next_action\""

  method ExtractOutermostArray(input: string) returns (block: string)
    ensures block == BlockAt(ARRAYS, input, IndexFrom(input, "[", 0))
  {
    var start := IndexFrom(input, "[", 0);
    if start < 0 {
      return "";
    }
    block := ScanBlock(ARRAYS, input, start);
  }

  /** The block salvageNextAction decodes: the first object after the key. */
  function SalvagedBlock(input: string): string {
    var idx := IndexFrom(input, NEXT_ACTION, 0);
    if idx < 0 then ""
    else
      BlockAt(OBJECTS, input, IndexFrom(input, "{", idx))
  }

  method SalvageNextAction(input: string) returns (block: string)
    ensures block == SalvagedBlock(input)
  {
    var idx := IndexFrom(input, NEXT_ACTION, 0);
    if idx < 0 {
      return "";
    }
    var start := IndexFrom(input, "{", idx);
    if start < 0 {
      return "";
    }
    block := ScanBlock(OBJECTS, input, start);
  }

  // ---- JSON text ----

  predicate IsPlain(c: char) {
    c !in "\"\\[]{}"
  }

  /** Text without quotes, backslashes or brackets: numbers, literals, separators, blanks. */
  type Plain = s: string | forall i | 0 <= i < |s| :: IsPlain(s[i])

  type InString = c: char | c != '"' && c != '\\' witness 'a'

  /** A character of a string literal, written as itself or behind a backslash. */
  datatype Piece = Itself(c: InString) | Escape(code: char)

  /** Any JSON text, blanks included: a word is a number or a literal. */
  datatype Json =
    | Word(text: Plain)
    | Str(pieces: seq<Piece>)
    | Arr(items: seq<Padded>, gap: Plain)
    | Obj(fields: seq<Field>, gap: Plain)

  datatype Padded = Padded(before: Plain, value: Json, after: Plain)
  datatype Field = Field(before: Plain, key: seq<Piece>, colon: Plain, padded: Padded)

  function PiecesText(pieces: seq<Piece>): string {
    if pieces == [] then ""
    else (match pieces[0] case Itself(c) => [c] case Escape(c) => ['\\', c]) + PiecesText(pieces[1..])
  }

  function Quoted(pieces: seq<Piece>): string {
    "\"" + PiecesText(pieces) + "\""
  }

  function Text(v: Json): string {
    match v
    case Word(text) => text
    case Str(pieces) => Quoted(pieces)
    case Arr(items, gap) => "[" + (ItemsText(items) + gap) + "]"
    case Obj(fields, gap) => "{" + (FieldsText(fields) + gap) + "}"
  }

  function PaddedText(p: Padded): string {
    p.before + Text(p.value) + p.after
  }

  function ItemsText(items: seq<Padded>): string {
    if items == [] then ""
    else PaddedText(items[0]) + (if |items| == 1 then "" else ",") + ItemsText(items[1..])
  }

  function FieldText(f: Field): string {
    f.before + Quoted(f.key) + f.colon + PaddedText(f.padded)
  }

  function FieldsText(fields: seq<Field>): string {
    if fields == [] then ""
    else FieldText(fields[0]) + (if |fields| == 1 then "" else ",") + FieldsText(fields[1..])
  }

  // ---- Scanning JSON text ----

  /** Scanning text from sc closes nothing and ends in end. */
  ghost predicate Passes(k: Kind, sc: Scanner, text: string, end: Scanner)
    decreases |text|
  {
    if text == "" then sc == end
    else !Closes(k, sc, text[0]) && Passes(k, Next(k, sc, text[0]), text[1..], end)
  }

  lemma {:induction false} PassesAppend(k: Kind, sc: Scanner, a: string, mid: Scanner, b: string, end: Scanner)
    requires Passes(k, sc, a, mid) && Passes(k, mid, b, end)
    ensures Passes(k, sc, a + b, end)
    decreases |a|
  {
    if a == "" {
      assert a + b == b;
    } else {
      assert (a + b)[1..] == a[1..] + b;
      PassesAppend(k, Next(k, sc, a[0]), a[1..], mid, b, end);
    }
  }

  lemma {:induction false} ScanPast(k: Kind, sc: Scanner, a: string, mid: Scanner, b: string)
    requires Passes(k, sc, a, mid)
    ensures ScanLength(k, a + b, sc) == Shift(|a|, ScanLength(k, b, mid))
    decreases |a|
  {
    if a == "" {
      assert a + b == b;
    } else {
      assert (a + b)[1..] == a[1..] + b;
      ScanPast(k, Next(k, sc, a[0]), a[1..], mid, b);
    }
  }

  /** Between tokens, inside at least one counted bracket. */
  ghost predicate Open(sc: Scanner) {
    sc.depth >= 1 && !sc.inString && !sc.escaped
  }

  lemma {:induction false} PlainPasses(k: Kind, sc: Scanner, text: Plain)
    requires k in {ARRAYS, OBJECTS} && Open(sc)
    ensures Passes(k, sc, text, sc)
    decreases |text|
  {
    if text != "" {
      assert IsPlain(text[0]);
      var rest := text[1..];
      assert forall i | 0 <= i < |rest| :: rest[i] == text[i + 1];
      PlainPasses(k, sc, rest);
    }
  }

  lemma {:induction false} PiecesPass(k: Kind, sc: Scanner, pieces: seq<Piece>)
    requires k in {ARRAYS, OBJECTS} && sc.inString && !sc.escaped
    ensures Passes(k, sc, PiecesText(pieces), sc)
    decreases |pieces|
  {
    if pieces != [] {
      var rest := PiecesText(pieces[1..]);
      PiecesPass(k, sc, pieces[1..]);
      match pieces[0] {
        case Itself(c) =>
          assert PiecesText(pieces)[1..] == rest;
        case Escape(c) =>
          assert PiecesText(pieces)[1..] == [c] + rest && ([c] + rest)[1..] == rest;
          var esc := sc.(escaped := true);
          assert Passes(k, esc, [c] + rest, sc);
      }
    }
  }

  lemma {:induction false} QuotedPasses(k: Kind, sc: Scanner, pieces: seq<Piece>)
    requires k in {ARRAYS, OBJECTS} && Open(sc)
    ensures Passes(k, sc, Quoted(pieces), sc)
  {
    var inside := sc.(inString := true);
    PiecesPass(k, inside, pieces);
    assert Passes(k, sc, "\"", inside) && Passes(k, inside, "\"", sc);
    PassesAppend(k, sc, "\"", inside, PiecesText(pieces), inside);
    PassesAppend(k, sc, "\"" + PiecesText(pieces), inside, "\"", sc);
  }

  /** Whatever the value, scanning its text changes nothing: brackets inside strings do not
      count, escaped quotes do not end strings, and the value's own brackets balance. */
  lemma {:induction false} TextPasses(k: Kind, sc: Scanner, v: Json)
    requires k in {ARRAYS, OBJECTS} && Open(sc)
    ensures Passes(k, sc, Text(v), sc)
    decreases v, 2
  {
    match v {
      case Word(text) => PlainPasses(k, sc, text);
      case Str(pieces) => QuotedPasses(k, sc, pieces);
      case Arr(items, gap) =>
        BodyPasses(k, Next(k, sc, '['), v, ItemsText(items) + gap);
        BracketsPass(k, sc, "[", Next(k, sc, '['), ItemsText(items) + gap, "]");
      case Obj(fields, gap) =>
        BodyPasses(k, Next(k, sc, '{'), v, FieldsText(fields) + gap);
        BracketsPass(k, sc, "{", Next(k, sc, '{'), FieldsText(fields) + gap, "}");
    }
  }

  /** What stands between the brackets. */
  lemma {:induction false} BodyPasses(k: Kind, sc: Scanner, v: Json, body: string)
    requires k in {ARRAYS, OBJECTS} && Open(sc)
    requires (v.Arr? && body == ItemsText(v.items) + v.gap) || (v.Obj? && body == FieldsText(v.fields) + v.gap)
    ensures Passes(k, sc, body, sc)
    decreases v, 1
  {
    PlainPasses(k, sc, v.gap);
    if v.Arr? {
      ItemsPass(k, sc, v, v.items);
      PassesAppend(k, sc, ItemsText(v.items), sc, v.gap, sc);
    } else {
      FieldsPass(k, sc, v, v.fields);
      PassesAppend(k, sc, FieldsText(v.fields), sc, v.gap, sc);
    }
  }

  lemma {:induction false} BracketsPass(k: Kind, sc: Scanner, open: string, inner: Scanner, body: string, close: string)
    requires k in {ARRAYS, OBJECTS} && Open(sc) && ((open == "[" && close == "]") || (open == "{" && close == "}"))
    requires inner == Next(k, sc, open[0]) && Passes(k, inner, body, inner)
    ensures Passes(k, sc, open + body + close, sc)
  {
    assert Passes(k, sc, open, inner) by {
      assert open[1..] == "";
    }
    assert Passes(k, inner, close, sc) by {
      assert close[1..] == "";
    }
    PassesAppend(k, sc, open, inner, body, inner);
    PassesAppend(k, sc, open + body, inner, close, sc);
  }

  lemma {:induction false} PaddedPasses(k: Kind, sc: Scanner, p: Padded)
    requires k in {ARRAYS, OBJECTS} && Open(sc)
    ensures Passes(k, sc, PaddedText(p), sc)
    decreases p, 3
  {
    PlainPasses(k, sc, p.before);
    TextPasses(k, sc, p.value);
    PlainPasses(k, sc, p.after);
    PassesAppend(k, sc, p.before, sc, Text(p.value), sc);
    PassesAppend(k, sc, p.before + Text(p.value), sc, p.after, sc);
  }

  lemma {:induction false} ItemsPass(k: Kind, sc: Scanner, v: Json, items: seq<Padded>)
    requires k in {ARRAYS, OBJECTS} && Open(sc)
    requires v.Arr? && forall p | p in items :: p in v.items
    ensures Passes(k, sc, ItemsText(items), sc)
    decreases v, 0, |items|
  {
    if items != [] {
      var p, comma: Plain := items[0], if |items| == 1 then "" else ",";
      assert p in v.items;
      PaddedPasses(k, sc, p);
      PlainPasses(k, sc, comma);
      ItemsPass(k, sc, v, items[1..]);
      PassesAppend(k, sc, PaddedText(p), sc, comma, sc);
      PassesAppend(k, sc, PaddedText(p) + comma, sc, ItemsText(items[1..]), sc);
    }
  }

  lemma {:induction false} FieldPasses(k: Kind, sc: Scanner, f: Field)
    requires k in {ARRAYS, OBJECTS} && Open(sc)
    ensures Passes(k, sc, FieldText(f), sc)
    decreases f, 4
  {
    PlainPasses(k, sc, f.before);
    QuotedPasses(k, sc, f.key);
    PlainPasses(k, sc, f.colon);
    PaddedPasses(k, sc, f.padded);
    PassesAppend(k, sc, f.before, sc, Quoted(f.key), sc);
    PassesAppend(k, sc, f.before + Quoted(f.key), sc, f.colon, sc);
    PassesAppend(k, sc, f.before + Quoted(f.key) + f.colon, sc, PaddedText(f.padded), sc);
  }

  lemma {:induction false} FieldsPass(k: Kind, sc: Scanner, v: Json, fields: seq<Field>)
    requires k in {ARRAYS, OBJECTS} && Open(sc)
    requires v.Obj? && forall f | f in fields :: f in v.fields
    ensures Passes(k, sc, FieldsText(fields), sc)
    decreases v, 0, |fields|
  {
    if fields != [] {
      var f, comma: Plain := fields[0], if |fields| == 1 then "" else ",";
      assert f in v.fields;
      FieldPasses(k, sc, f);
      PlainPasses(k, sc, comma);
      FieldsPass(k, sc, v, fields[1..]);
      PassesAppend(k, sc, FieldText(f), sc, comma, sc);
      PassesAppend(k, sc, FieldText(f) + comma, sc, FieldsText(fields[1..]), sc);
    }
  }

  /** The bracketed value a scanner is for. */
  predicate Matches(k: Kind, v: Json) {
    (k == ARRAYS && v.Arr?) || (k == OBJECTS && v.Obj?)
  }

  /** Started at the bracket of a value's text, the scanner takes exactly that text. */
  lemma {:induction false} ScanTakesValue(k: Kind, v: Json, tail: string)
    requires Matches(k, v)
    ensures ScanLength(k, Text(v) + tail, Scanner(0, false, false)) == |Text(v)|
  {
    var inner := Scanner(1, false, false);
    if v.Arr? {
      BodyPasses(k, inner, v, ItemsText(v.items) + v.gap);
      ScanTakesBody(k, "[", ItemsText(v.items) + v.gap, "]", tail);
    } else {
      BodyPasses(k, inner, v, FieldsText(v.fields) + v.gap);
      ScanTakesBody(k, "{", FieldsText(v.fields) + v.gap, "}", tail);
    }
  }

  lemma {:induction false} ScanTakesBody(k: Kind, open: string, body: string, close: string, tail: string)
    requires k in {ARRAYS, OBJECTS} && open == [k.open] && close == [k.close]
    requires Passes(k, Scanner(1, false, false), body, Scanner(1, false, false))
    ensures ScanLength(k, open + body + close + tail, Scanner(0, false, false)) == |open + body + close|
  {
    var start, inner := Scanner(0, false, false), Scanner(1, false, false);
    assert open[1..] == "" && Passes(k, start, open, inner);
    PassesAppend(k, start, open, inner, body, inner);
    ScanPast(k, start, open + body, inner, close + tail);
    assert open + body + close + tail == (open + body) + (close + tail);
  }

  lemma {:induction false} BlockIsValue(k: Kind, pre: string, v: Json, tail: string)
    requires Matches(k, v)
    ensures BlockAt(k, pre + Text(v) + tail, |pre|) == Text(v)
  {
    var input := pre + Text(v) + tail;
    assert input[|pre|..] == Text(v) + tail;
    ScanTakesValue(k, v, tail);
    assert input[|pre|..|pre| + |Text(v)|] == Text(v);
  }

  lemma {:induction false} FirstIndex(s: string, needle: string, i: nat, r: nat)
    requires i <= r && OccursAt(s, needle, r) && forall j | i <= j < r :: !OccursAt(s, needle, j)
    ensures IndexFrom(s, needle, i) == r
  {
  }

  /** From bracket-free prose, then an array, then arbitrary text, exactly the array is cut. */
  lemma {:induction false} ArrayIsExtracted(prose: string, v: Json, tail: string)
    requires v.Arr? && '[' !in prose
    ensures var input := prose + Text(v) + tail;
            BlockAt(ARRAYS, input, IndexFrom(input, "[", 0)) == Text(v)
  {
    var input := prose + Text(v) + tail;
    assert input[|prose|] == '[';
    assert OccursAt(input, "[", |prose|);
    forall j | 0 <= j < |prose| ensures !OccursAt(input, "[", j) {
      assert input[j..j + 1][0] == prose[j] && prose[j] in prose;
    }
    FirstIndex(input, "[", 0, |prose|);
    BlockIsValue(ARRAYS, prose, v, tail);
  }

  /** The object after the first "next_action" key is cut out exactly, whatever its strings
      hold and whatever precedes the key and follows the object. */
  lemma {:induction false} ObjectIsSalvaged(pre: string, mid: string, v: Json, tail: string, input: string)
    requires v.Obj? && '{' !in mid && input == pre + NEXT_ACTION + mid + Text(v) + tail
    requires forall j | 0 <= j < |pre| :: !OccursAt(input, NEXT_ACTION, j)
    ensures SalvagedBlock(input) == Text(v)
  {
    assert OccursAt(input, NEXT_ACTION, |pre|);
    FirstIndex(input, NEXT_ACTION, 0, |pre|);
    var before := pre + NEXT_ACTION + mid;
    var at := |before|;
    assert input[at] == '{';
    assert OccursAt(input, "{", at);
    forall j | |pre| <= j < at ensures !OccursAt(input, "{", j) {
      assert input[j..j + 1][0] == before[j];
      if j < |pre| + |NEXT_ACTION| {
        assert before[j] == NEXT_ACTION[j - |pre|];
      } else {
        assert before[j] == mid[j - |pre| - |NEXT_ACTION|] && before[j] in mid;
      }
    }
    FirstIndex(input, "{", |pre|, at);
    BlockIsValue(OBJECTS, before, v, tail);
  }
}
