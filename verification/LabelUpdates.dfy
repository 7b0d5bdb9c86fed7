/** A list of label assignments, either overwriting or only filling gaps. */
module LabelUpdates {
  import opened Prelude

  type Pair = (string, string)

  function Overwrite(t: StringMap, pairs: seq<Pair>): StringMap {
    if pairs == [] then t
    else
      var n := |pairs| - 1;
      Overwrite(t, pairs[..n])[pairs[n].0 := pairs[n].1]
  }

  function Fill(t: StringMap, p: Pair): StringMap {
    if p.0 in t then t else t[p.0 := p.1]
  }

  function FillIn(t: StringMap, pairs: seq<Pair>): StringMap {
    if pairs == [] then t
    else
      var n := |pairs| - 1;
      Fill(FillIn(t, pairs[..n]), pairs[n])
  }

  predicate HasKey(pairs: seq<Pair>, k: string) {
    exists i :: 0 <= i < |pairs| && pairs[i].0 == k
  }

  /** The value of the last assignment to k. */
  function LastValue(pairs: seq<Pair>, k: string): (v: string)
    requires HasKey(pairs, k)
    ensures exists i :: 0 <= i < |pairs| && pairs[i] == (k, v) && forall j :: i < j < |pairs| ==> pairs[j].0 != k
  {
    var n := |pairs| - 1;
    if pairs[n].0 == k then pairs[n].1 else LastValue(pairs[..n], k)
  }

  lemma {:induction false} OverwriteAt(t: StringMap, pairs: seq<Pair>, k: string)
    ensures HasKey(pairs, k) ==> k in Overwrite(t, pairs) && Overwrite(t, pairs)[k] == LastValue(pairs, k)
    ensures !HasKey(pairs, k) ==> SameAt(Overwrite(t, pairs), t, k)
  {
    if pairs != [] {
      var n := |pairs| - 1;
      OverwriteAt(t, pairs[..n], k);
      if HasKey(pairs, k) && pairs[n].0 != k {
        var i :| 0 <= i < |pairs| && pairs[i].0 == k;
        assert pairs[..n][i].0 == k;
      }
    }
  }

  lemma {:induction false} FillInAt(t: StringMap, pairs: seq<Pair>, k: string)
    ensures k in FillIn(t, pairs) <==> k in t || HasKey(pairs, k)
    ensures k in t ==> FillIn(t, pairs)[k] == t[k]
  {
    if pairs != [] {
      var n := |pairs| - 1;
      FillInAt(t, pairs[..n], k);
      if HasKey(pairs, k) && pairs[n].0 != k {
        var i :| 0 <= i < |pairs| && pairs[i].0 == k;
        assert pairs[..n][i].0 == k;
      }
    }
  }

  /** A missing key gets the value of its first assignment. */
  lemma {:induction false} FillInFirst(t: StringMap, pairs: seq<Pair>, i: nat)
    requires i < |pairs| && pairs[i].0 !in t && forall j :: 0 <= j < i ==> pairs[j].0 != pairs[i].0
    ensures Lookup(FillIn(t, pairs), pairs[i].0) == Some(pairs[i].1)
  {
    var n := |pairs| - 1;
    if i < n {
      FillInFirst(t, pairs[..n], i);
    } else {
      FillInAt(t, pairs[..n], pairs[i].0);
    }
  }

  lemma FillInTwice(t: StringMap, pairs: seq<Pair>, u: StringMap)
    requires u == FillIn(t, pairs)
    ensures FillIn(u, pairs) == u
  {
    forall k ensures SameAt(FillIn(u, pairs), u, k) {
      FillInAt(t, pairs, k);
      FillInAt(u, pairs, k);
    }
    SameEverywhere(FillIn(u, pairs), u);
  }

  /** Overwriting again what later assignments may have overwritten, then repeating those, changes nothing. */
  lemma StagesTwice(t: StringMap, first: seq<Pair>, gap: seq<Pair>, last: seq<Pair>, u: StringMap)
    requires u == Overwrite(FillIn(Overwrite(t, first), gap), last)
    ensures Overwrite(FillIn(Overwrite(u, first), gap), last) == u
  {
    var v := Overwrite(FillIn(Overwrite(u, first), gap), last);
    forall k ensures SameAt(v, u, k) {
      OverwriteAt(t, first, k);
      FillInAt(Overwrite(t, first), gap, k);
      OverwriteAt(FillIn(Overwrite(t, first), gap), last, k);
      OverwriteAt(u, first, k);
      FillInAt(Overwrite(u, first), gap, k);
      OverwriteAt(FillIn(Overwrite(u, first), gap), last, k);
    }
    SameEverywhere(v, u);
  }

  lemma OverwriteMore(t: StringMap, pairs: seq<Pair>, p: Pair)
    ensures Overwrite(t, pairs + [p]) == Overwrite(t, pairs)[p.0 := p.1]
  {
    assert (pairs + [p])[..|pairs|] == pairs;
  }

  lemma FillMore(t: StringMap, pairs: seq<Pair>, p: Pair)
    ensures FillIn(t, pairs + [p]) == Fill(FillIn(t, pairs), p)
  {
    assert (pairs + [p])[..|pairs|] == pairs;
  }

  lemma FiveUpdates(t: StringMap, a: Pair, b: Pair, c: Pair, d: Pair, e: Pair)
    ensures Overwrite(t, [a, b, c, d, e]) == t[a.0 := a.1][b.0 := b.1][c.0 := c.1][d.0 := d.1][e.0 := e.1]
    ensures Overwrite(t, [a, b, c, d]) == t[a.0 := a.1][b.0 := b.1][c.0 := c.1][d.0 := d.1]
    ensures FillIn(t, [a, b, c, d, e]) == Fill(Fill(Fill(Fill(Fill(t, a), b), c), d), e)
    ensures Overwrite(t, [a]) == t[a.0 := a.1] && FillIn(t, [a]) == Fill(t, a)
  {
    assert [a] == [] + [a] && [a, b] == [a] + [b] && [a, b, c] == [a, b] + [c];
    assert [a, b, c, d] == [a, b, c] + [d] && [a, b, c, d, e] == [a, b, c, d] + [e];
    OverwriteMore(t, [], a);
    OverwriteMore(t, [a], b);
    OverwriteMore(t, [a, b], c);
    OverwriteMore(t, [a, b, c], d);
    OverwriteMore(t, [a, b, c, d], e);
    FillMore(t, [], a);
    FillMore(t, [a], b);
    FillMore(t, [a, b], c);
    FillMore(t, [a, b, c], d);
    FillMore(t, [a, b, c, d], e);
  }

  /** A run of fills changes the map exactly when one of them does. */
  lemma FiveFills(t: StringMap, a: Pair, b: Pair, c: Pair, d: Pair, e: Pair)
    ensures var ta := Fill(t, a);
      var tb := Fill(ta, b);
      var tc := Fill(tb, c);
      var td := Fill(tc, d);
      Fill(td, e) != t <==> a.0 !in t || b.0 !in ta || c.0 !in tb || d.0 !in tc || e.0 !in td
  {
    var all := Fill(Fill(Fill(Fill(Fill(t, a), b), c), d), e);
    assert all == t ==> all.Keys == t.Keys;
  }
}
