/**
 * Text composition shared by every generator function: a file is the
 * concatenation of its parts, and the properties of the generator are
 * statements that some piece of text occurs in a file.
 */
module Template {

  /** The parts written one after another, as a template literal joins its pieces. */
  function Concat(parts: seq<string>): string {
    if parts == [] then "" else parts[0] + Concat(parts[1..])
  }

  /**
   * `t` occurs in `s` as one contiguous piece of text (`s.includes(t)`):
   * `t` is a prefix of `s` or occurs in `s` after its first character.
   */
  ghost predicate Contains(s: string, t: string)
    decreases |s|
  {
    t <= s || (s != [] && Contains(s[1..], t))
  }

  /** `Contains` is the existence of the text before and after the occurrence. */
  lemma {:induction false} Occurs(p: string, t: string, q: string)
    ensures Contains(p + t + q, t)
  {
    if p == [] {
      assert p + t + q == t + q;
      assert (t + q)[..|t|] == t;
    } else {
      Occurs(p[1..], t, q);
      assert (p + t + q)[1..] == p[1..] + t + q;
    }
  }

  /** Every occurrence has the text before and after it. */
  lemma {:induction false} OccurrenceSplits(s: string, t: string)
    requires Contains(s, t)
    ensures exists p, q :: s == p + t + q
  {
    if t <= s {
      assert s == [] + t + s[|t|..];
    } else {
      OccurrenceSplits(s[1..], t);
      var p, q :| s[1..] == p + t + q;
      assert s == ([s[0]] + p) + t + q;
    }
  }

  /** Concatenation distributes over putting two part lists one after the other. */
  lemma {:induction false} ConcatAppend(a: seq<string>, b: seq<string>)
    ensures Concat(a + b) == Concat(a) + Concat(b)
  {
    if a == [] {
      assert a + b == b;
    } else {
      assert (a + b)[0] == a[0];
      assert (a + b)[1..] == a[1..] + b;
      ConcatAppend(a[1..], b);
    }
  }

  /** Every part of a file occurs, whole, in the file. */
  lemma PartOccurs(parts: seq<string>, k: nat, s: string)
    requires k < |parts| && parts[k] == s
    ensures Contains(Concat(parts), s)
  {
    var pre, post := parts[..k], parts[k + 1..];
    assert parts == pre + [s] + post;
    ConcatAppend(pre + [s], post);
    ConcatAppend(pre, [s]);
    assert Concat([s]) == s + Concat([]);
    assert Concat([s]) == s;
    assert Concat(parts) == Concat(pre) + s + Concat(post);
    Occurs(Concat(pre), s, Concat(post));
  }

  /** Two neighbouring parts of a file occur, one right after the other, in the file. */
  lemma PartsOccur(parts: seq<string>, k: nat, s: string)
    requires k + 1 < |parts| && parts[k] + parts[k + 1] == s
    ensures Contains(Concat(parts), s)
  {
    var a, b := parts[k], parts[k + 1];
    var pre, post := parts[..k], parts[k + 2..];
    assert parts == pre + [a, b] + post;
    ConcatAppend(pre + [a, b], post);
    ConcatAppend(pre, [a, b]);
    assert [a, b][1..] == [b];
    assert Concat([b]) == b + Concat([]);
    assert Concat([a, b]) == s;
    assert Concat(parts) == Concat(pre) + s + Concat(post);
    Occurs(Concat(pre), s, Concat(post));
  }

  /** A run of neighbouring parts of a file occurs, joined, in the file. */
  lemma RunOccurs(parts: seq<string>, k: nat, n: nat, s: string)
    requires k + n <= |parts| && Concat(parts[k..k + n]) == s
    ensures Contains(Concat(parts), s)
  {
    var pre, run, post := parts[..k], parts[k..k + n], parts[k + n..];
    assert parts == pre + run + post;
    ConcatAppend(pre + run, post);
    ConcatAppend(pre, run);
    Occurs(Concat(pre), s, Concat(post));
  }

  /** Five parts joined, grouped as a pair, a part and a pair. */
  lemma ConcatFive(a: string, b: string, c: string, d: string, e: string)
    ensures Concat([a, b, c, d, e]) == (a + b) + c + (d + e)
  {
    assert [a, b, c, d, e][1..] == [b, c, d, e];
    assert [b, c, d, e][1..] == [c, d, e];
    assert [c, d, e][1..] == [d, e];
    assert [d, e][1..] == [e];
    assert Concat([e]) == e + Concat([]) == e;
    assert Concat([d, e]) == d + e;
    assert Concat([c, d, e]) == c + (d + e);
    assert a + (b + (c + (d + e))) == (a + b) + c + (d + e);
  }

  /**
   * Five neighbouring parts of a file occur, joined, in the file: a pair, a
   * part and a pair, as a documented response writes them.
   */
  lemma FiveOccur(parts: seq<string>, k: nat, s: string)
    requires k + 5 <= |parts|
    requires (parts[k] + parts[k + 1]) + parts[k + 2] + (parts[k + 3] + parts[k + 4]) == s
    ensures Contains(Concat(parts), s)
  {
    assert parts[k..k + 5] == [parts[k], parts[k + 1], parts[k + 2], parts[k + 3], parts[k + 4]];
    ConcatFive(parts[k], parts[k + 1], parts[k + 2], parts[k + 3], parts[k + 4]);
    RunOccurs(parts, k, 5, s);
  }

  /** A line of a file occurs, without its indentation, in the file. */
  lemma LineOccurs(parts: seq<string>, k: nat, indent: string, s: string)
    requires k < |parts| && parts[k] == indent + s
    ensures Contains(Concat(parts), s)
  {
    PartOccurs(parts, k, indent + s);
    Occurs(indent, s, "");
    assert indent + s + "" == indent + s;
    ContainsTrans(Concat(parts), indent + s, s);
  }

  /** A piece of a piece of a file is a piece of the file. */
  lemma ContainsTrans(s: string, t: string, u: string)
    requires Contains(s, t) && Contains(t, u)
    ensures Contains(s, u)
  {
    OccurrenceSplits(s, t);
    OccurrenceSplits(t, u);
    var p, q :| s == p + t + q;
    var p', q' :| t == p' + u + q';
    assert s == (p + p') + u + (q' + q);
    Occurs(p + p', u, q' + q);
  }
}
