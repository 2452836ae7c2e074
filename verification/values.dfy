/** Section payloads: JSON-like values that may embed a live HTML element. */
module Values {

  /** An HTML element held inside section data: its markup, and whether it is
      the node attached to the editor's document (runtime-only state). */
  datatype Node = Node(markup: string, connected: bool)

  /** `cloneNode(true)`: a deep copy with the same markup, attached nowhere. */
  function CloneNode(n: Node): Node {
    Node(n.markup, false)
  }

  /** A data value as the editor keeps it. */
  datatype Value =
    | Null
    | Prim(text: string)
    | Element(node: Node)
    | List(items: seq<Value>)
    | Record(fields: map<string, Value>)

  /** A section's (or sub-component's) data object. */
  type Data = map<string, Value>

  /** `s` begins with `prefix` (the `/^prefix/` test). */
  predicate StartsWith(s: string, prefix: string) {
    |prefix| <= |s| && s[..|prefix|] == prefix
  }

  /** `t` sits inside `s` starting at position `i`. */
  predicate OccursAt(s: string, t: string, i: nat) {
    i + |t| <= |s| && s[i..i + |t|] == t
  }

  /** `t` is a substring of `s`. */
  predicate Contains(s: string, t: string) {
    exists i: nat | i <= |s| :: OccursAt(s, t, i)
  }

  /** `t` spliced between two strings occurs right after the first. */
  lemma OccursInMiddle(a: string, t: string, c: string)
    ensures OccursAt(a + t + c, t, |a|)
  {
    assert (a + t + c)[|a|..|a| + |t|] == t;
  }

  /** An occurrence survives appending more text. */
  lemma OccursExtended(s: string, t: string, i: nat, u: string)
    requires OccursAt(s, t, i)
    ensures OccursAt(s + u, t, i)
  {
    assert (s + u)[i..i + |t|] == s[i..i + |t|];
  }

  /** The strings `f` renders for each element, concatenated in order (the
      `acc = acc + f(x)` loop). */
  function ConcatMap<T>(xs: seq<T>, f: T -> string): string {
    if |xs| == 0 then "" else ConcatMap(xs[..|xs| - 1], f) + f(xs[|xs| - 1])
  }

  lemma {:induction false} ConcatMapAppend<T>(a: seq<T>, b: seq<T>, f: T -> string)
    ensures ConcatMap(a + b, f) == ConcatMap(a, f) + ConcatMap(b, f)
    decreases |b|
  {
    if |b| == 0 {
      assert a + b == a;
    } else {
      var b' := b[..|b| - 1];
      assert (a + b)[..|a + b| - 1] == a + b';
      assert (a + b)[|a + b| - 1] == b[|b| - 1];
      ConcatMapAppend(a, b', f);
    }
  }

  /** The concatenation is empty exactly when every element renders empty. */
  lemma {:induction false} ConcatMapEmpty<T>(xs: seq<T>, f: T -> string)
    ensures ConcatMap(xs, f) == "" <==> forall i :: 0 <= i < |xs| ==> f(xs[i]) == ""
    decreases |xs|
  {
    if |xs| > 0 {
      var init := xs[..|xs| - 1];
      ConcatMapEmpty(init, f);
      assert forall i :: 0 <= i < |init| ==> init[i] == xs[i];
    }
  }

  /** Each element's rendering appears in the result, after the renderings of
      the elements before it. */
  lemma ConcatMapInOrder<T>(xs: seq<T>, i: nat, f: T -> string)
    requires i < |xs|
    ensures OccursAt(ConcatMap(xs, f), f(xs[i]), |ConcatMap(xs[..i], f)|)
    ensures ConcatMap(xs[..i + 1], f) == ConcatMap(xs[..i], f) + f(xs[i])
  {
    assert xs[..i + 1][..i] == xs[..i];
    assert xs == xs[..i + 1] + xs[i + 1..];
    ConcatMapAppend(xs[..i + 1], xs[i + 1..], f);
    OccursInMiddle(ConcatMap(xs[..i], f), f(xs[i]), "");
    assert ConcatMap(xs[..i], f) + f(xs[i]) + "" == ConcatMap(xs[..i + 1], f);
    OccursExtended(ConcatMap(xs[..i + 1], f), f(xs[i]), |ConcatMap(xs[..i], f)|, ConcatMap(xs[i + 1..], f));
  }
}
