/** Small vocabulary shared by the other modules: an option type and the string
    operations of Go's strings package that the agent's control flow depends on. */
module Base {
  datatype Option<+T> = None | Some(value: T)

  /** The white space that unicode.IsSpace recognises. */
  predicate IsSpace(c: char) {
    || '\t' <= c <= '\r'
    || c == ' ' || c == '\U{0085}' || c == '\U{00A0}' || c == '\U{1680}'
    || '\U{2000}' <= c <= '\U{200A}'
    || c == '\U{2028}' || c == '\U{2029}' || c == '\U{202F}' || c == '\U{205F}' || c == '\U{3000}'
  }

  function TrimLeft(s: string): string {
    if s != "" && IsSpace(s[0]) then TrimLeft(s[1..]) else s
  }

  function TrimRight(s: string): string {
    if s != "" && IsSpace(s[|s| - 1]) then TrimRight(s[..|s| - 1]) else s
  }

  /** strings.TrimSpace */
  function TrimSpace(s: string): string {
    TrimRight(TrimLeft(s))
  }

  /** strings.HasPrefix */
  predicate HasPrefix(s: string, prefix: string) {
    prefix <= s
  }

  /** The needle occurs in s at position i. */
  predicate OccursAt(s: string, needle: string, i: int) {
    0 <= i <= |s| - |needle| && s[i..i + |needle|] == needle
  }

  /** strings.Contains */
  predicate Contains(s: string, needle: string) {
    exists i | 0 <= i <= |s| - |needle| :: OccursAt(s, needle, i)
  }

  /** list has each member of all once, in whatever order a map iteration gives. */
  ghost predicate ListsOnce<T(!new)>(list: seq<T>, all: set<T>) {
    (forall x :: x in list <==> x in all) && forall i, j | 0 <= i < j < |list| :: list[i] != list[j]
  }

  /** The keys of a map in the order of one iteration, which may be any. */
  method ListKeys<T(!new)>(ids: set<T>) returns (list: seq<T>)
    ensures ListsOnce(list, ids)
  {
    list := [];
    var rest := ids;
    while rest != {}
      invariant rest <= ids && ListsOnce(list, ids - rest)
      decreases rest
    {
      var id :| id in rest;
      list := list + [id];
      rest := rest - {id};
    }
    assert ids - rest == ids;
  }
}
