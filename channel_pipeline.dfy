/**
 * The Netty channel pipeline as the handlers edit it: an ordered list of handler
 * names. Netty refuses a name that is already taken and throws when asked to remove
 * or to insert after a handler that is not there; these functions do the same.
 */
module ChannelPipeline {
  import opened Common

  /** Handler names. Names defined as constants elsewhere in the transport are symbolic here. */
  datatype Name =
    | DecoderName          // the HttpRequestDecoder of a server pipeline
    | SslName              // the SSL handler
    | IdleStateName        // the idle-state watchdog
    | RedirectName         // the redirect handler of a client pipeline
    | TraceLogName         // the HTTP trace logger
    | TargetName           // the HTTP/1.1 TargetHandler
    | Http2TargetName      // the HTTP/2 target handler
    | Named(text: string)  // a handler added under a literal name

  /** Netty keeps handler names unique within one pipeline. */
  predicate Unique(p: seq<Name>) {
    forall i, j :: 0 <= i < j < |p| ==> p[i] != p[j]
  }

  /** Position of a handler in the pipeline, if it is there. */
  function IndexOf(p: seq<Name>, n: Name): (r: Option<nat>)
    ensures r.None? <==> n !in p
    ensures r.Some? ==> r.value < |p| && p[r.value] == n && n !in p[..r.value]
  {
    if |p| == 0 then None
    else if p[0] == n then Some(0)
    else match IndexOf(p[1..], n)
      case None => None
      case Some(k) =>
        assert p[..k + 1] == [p[0]] + p[1..][..k];
        Some(k + 1)
  }

  /** What dropping the entry at index i keeps of the pipeline. */
  lemma RemoveAtKeeps(p: seq<Name>, i: nat)
    requires i < |p|
    ensures var q := p[..i] + p[i + 1..];
      && multiset(q) == multiset(p) - multiset{p[i]}
      && (forall m :: m != p[i] ==> (m in q <==> m in p))
      && (Unique(p) ==> Unique(q) && p[i] !in q)
  {
    assert p == p[..i] + [p[i]] + p[i + 1..];
    RemoveAtKeepsOthers(p, i);
    if Unique(p) {
      RemoveAtKeepsUnique(p, i);
    }
  }

  lemma RemoveAtKeepsOthers(p: seq<Name>, i: nat)
    requires i < |p|
    ensures forall m :: m != p[i] ==> (m in p[..i] + p[i + 1..] <==> m in p)
  {
    var q := p[..i] + p[i + 1..];
    forall m | m != p[i] && m in p ensures m in q {
      var k :| 0 <= k < |p| && p[k] == m;
      assert q[if k < i then k else k - 1] == m;
    }
  }

  lemma RemoveAtKeepsUnique(p: seq<Name>, i: nat)
    requires i < |p| && Unique(p)
    ensures Unique(p[..i] + p[i + 1..]) && p[i] !in p[..i] + p[i + 1..]
  {
    var q := p[..i] + p[i + 1..];
    forall a, b | 0 <= a < b < |q| ensures q[a] != q[b] {
      var a' := if a < i then a else a + 1;
      var b' := if b < i then b else b + 1;
      assert q[a] == p[a'] && q[b] == p[b'];
    }
    forall k | 0 <= k < |q| ensures q[k] != p[i] {
      var k' := if k < i then k else k + 1;
      assert q[k] == p[k'];
    }
  }

  /** ChannelPipeline.remove(name): NoSuchElementException when the handler is absent. */
  function Remove(p: seq<Name>, n: Name): (r: Result<seq<Name>>)
    ensures r.Ok? <==> n in p
    ensures r.Err? ==> r.error == NoSuchElement
    ensures r.Ok? ==> |r.value| == |p| - 1 && multiset(r.value) == multiset(p) - multiset{n}
    ensures r.Ok? ==> forall m :: m != n ==> (m in r.value <==> m in p)
    ensures r.Ok? && Unique(p) ==> Unique(r.value) && n !in r.value
  {
    match IndexOf(p, n)
    case None => Err(NoSuchElement)
    case Some(i) =>
      RemoveAtKeeps(p, i);
      Ok(p[..i] + p[i + 1..])
  }

  /**
   * remove keeps the order: the handlers before the first occurrence stay where they
   * were, and the ones after it move up by one.
   */
  lemma RemoveKeepsOrder(p: seq<Name>, n: Name)
    requires n in p
    ensures var i, q := IndexOf(p, n).value, Remove(p, n).value;
      q[..i] == p[..i] && q[i..] == p[i + 1..]
  {
  }

  /** Removing a handler only when it is present (a "safe" remove that never throws). */
  function RemoveIfPresent(p: seq<Name>, n: Name): (r: seq<Name>)
    ensures n !in p ==> r == p
    ensures Unique(p) ==> Unique(r) && n !in r
    ensures forall m :: m != n ==> (m in r <==> m in p)
    ensures n in p ==> r == Remove(p, n).value
  {
    match Remove(p, n)
    case Err(_) => p
    case Ok(q) => q
  }

  /** The pipeline with every handler named in gone taken out, the rest in their order. */
  function Without(p: seq<Name>, gone: set<Name>): (r: seq<Name>)
    ensures |r| <= |p|
    ensures forall m :: m in r <==> m in p && m !in gone
  {
    if p == [] then []
    else (if p[0] in gone then [] else [p[0]]) + Without(p[1..], gone)
  }

  lemma {:induction false} WithoutAppend(a: seq<Name>, b: seq<Name>, gone: set<Name>)
    ensures Without(a + b, gone) == Without(a, gone) + Without(b, gone)
  {
    if a == [] {
      assert a + b == b;
    } else {
      assert (a + b)[0] == a[0] && (a + b)[1..] == a[1..] + b;
      WithoutAppend(a[1..], b, gone);
    }
  }

  /** Taking out handlers that are not there changes nothing. */
  lemma {:induction false} WithoutAbsent(p: seq<Name>, gone: set<Name>)
    requires forall m :: m in gone ==> m !in p
    ensures Without(p, gone) == p
  {
    if p != [] {
      assert p[0] in p;
      WithoutAbsent(p[1..], gone);
    }
  }

  /** Taking out two sets of handlers one after the other takes out their union. */
  lemma {:induction false} WithoutWithout(p: seq<Name>, a: set<Name>, b: set<Name>)
    ensures Without(Without(p, a), b) == Without(p, a + b)
  {
    if p != [] {
      WithoutWithout(p[1..], a, b);
      var head := if p[0] in a then [] else [p[0]];
      WithoutAppend(head, Without(p[1..], a), b);
      if p[0] !in a {
        assert Without(head, b) == (if p[0] in b then [] else [p[0]]) + Without([], b);
      }
    }
  }

  /** In a pipeline of unique names, removing one is filtering it out. */
  lemma RemoveIfPresentIsWithout(p: seq<Name>, n: Name)
    requires Unique(p)
    ensures RemoveIfPresent(p, n) == Without(p, {n})
  {
    var gone := {n};
    if n !in p {
      WithoutAbsent(p, gone);
    } else {
      var i := IndexOf(p, n).value;
      var before, after := p[..i], p[i + 1..];
      var rest := [n] + after;
      assert p == before + rest;
      UniqueNotAfter(p, i);
      WithoutAbsent(before, gone);
      WithoutAbsent(after, gone);
      WithoutAppend(before, rest, gone);
      assert rest[0] == n && rest[1..] == after;
      assert Without(rest, gone) == after;
      assert Without(p, gone) == before + after;
      RemoveKeepsOrder(p, n);
      var q := Remove(p, n).value;
      assert q == q[..i] + q[i..];
    }
  }

  lemma UniqueNotAfter(p: seq<Name>, i: nat)
    requires Unique(p) && i < |p|
    ensures p[i] !in p[i + 1..]
  {
    var after := p[i + 1..];
    forall k | 0 <= k < |after| ensures after[k] != p[i] {
      assert after[k] == p[i + 1 + k];
    }
  }

  /** Removing a handler other than the last one of a unique pipeline leaves the last one last. */
  lemma RemoveIfPresentBeforeLast(q: seq<Name>, last: Name, n: Name)
    requires Unique(q + [last]) && n != last
    ensures RemoveIfPresent(q + [last], n) == Without(q, {n}) + [last]
    ensures Unique(Without(q, {n}) + [last])
  {
    RemoveIfPresentIsWithout(q + [last], n);
    WithoutAppend(q, [last], {n});
    assert Without([last], {n}) == [last] + Without([], {n});
  }

  /** ChannelPipeline.addLast(name, handler): IllegalArgumentException on a duplicate name. */
  function AddLast(p: seq<Name>, n: Name): (r: Result<seq<Name>>)
    ensures r.Ok? <==> n !in p
    ensures r.Err? ==> r.error == IllegalArgument
    ensures r.Ok? ==> |r.value| == |p| + 1 && r.value[..|p|] == p && r.value[|p|] == n
    ensures r.Ok? && Unique(p) ==> Unique(r.value)
  {
    if n in p then Err(IllegalArgument) else Ok(p + [n])
  }

  /**
   * ChannelPipeline.addAfter(base, name, handler): the duplicate name is checked first
   * (IllegalArgumentException), then the base (NoSuchElementException).
   */
  function AddAfter(p: seq<Name>, base: Name, n: Name): (r: Result<seq<Name>>)
    ensures r.Ok? <==> n !in p && base in p
    ensures n in p ==> r == Err(IllegalArgument)
    ensures n !in p && base !in p ==> r == Err(NoSuchElement)
    ensures r.Ok? ==> var i := IndexOf(p, base).value;
      |r.value| == |p| + 1 && r.value[i] == base && r.value[i + 1] == n
      && r.value[..i + 1] == p[..i + 1] && r.value[i + 2..] == p[i + 1..]
    ensures r.Ok? && Unique(p) ==> Unique(r.value)
  {
    if n in p then Err(IllegalArgument)
    else match IndexOf(p, base)
      case None => Err(NoSuchElement)
      case Some(i) =>
        var q := p[..i + 1] + [n] + p[i + 1..];
        assert Unique(p) ==> Unique(q) by {
          if Unique(p) {
            forall a, b | 0 <= a < b < |q| ensures q[a] != q[b] {
              if a != i + 1 && b != i + 1 {
                var a' := if a <= i then a else a - 1;
                var b' := if b <= i then b else b - 1;
                assert q[a] == p[a'] && q[b] == p[b'];
              } else if a == i + 1 {
                assert q[b] == p[b - 1];
              } else {
                assert q[a] == p[a];
              }
            }
          }
        }
        Ok(q)
  }
}
