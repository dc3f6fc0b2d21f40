/** How both copies of `validatePost` assemble their result: platforms are visited
    in selection order, and a platform's list of messages is stored under its key
    only when it is non-empty (`if (platformErrors.length > 0) errors[platformKey] = platformErrors`). */
module Report {
  import opened Types

  /** The error map for `selected`, given each platform's own list of messages. */
  function Collect(selected: seq<PlatformKey>, errorsOf: PlatformKey -> seq<string>): ValidationErrors
    decreases |selected|
  {
    if selected == [] then map[]
    else
      var p := selected[|selected| - 1];
      var errors := Collect(selected[..|selected| - 1], errorsOf);
      if |errorsOf(p)| > 0 then errors[KeyString(p) := errorsOf(p)] else errors
  }

  /** Visiting one more platform: the step of the loop in both validators. */
  lemma CollectSnoc(selected: seq<PlatformKey>, errorsOf: PlatformKey -> seq<string>, i: nat)
    requires i < |selected|
    ensures Collect(selected[..i + 1], errorsOf)
      == if |errorsOf(selected[i])| > 0
         then Collect(selected[..i], errorsOf)[KeyString(selected[i]) := errorsOf(selected[i])]
         else Collect(selected[..i], errorsOf)
  {
    assert selected[..i + 1][..i] == selected[..i];
  }

  /** A platform's key is in the result exactly when it is selected and produced
      at least one message, and then it holds exactly that platform's messages:
      the other selected platforms do not influence it. */
  lemma {:induction false} CollectAt(selected: seq<PlatformKey>, errorsOf: PlatformKey -> seq<string>, p: PlatformKey)
    ensures KeyString(p) in Collect(selected, errorsOf) <==> p in selected && errorsOf(p) != []
    ensures KeyString(p) in Collect(selected, errorsOf) ==> Collect(selected, errorsOf)[KeyString(p)] == errorsOf(p)
    decreases |selected|
  {
    if selected != [] {
      var init := selected[..|selected| - 1];
      var q := selected[|selected| - 1];
      CollectAt(init, errorsOf, p);
      KeyStringInjective(p, q);
      assert selected == init + [q];
    }
  }

  /** Every key of the result belongs to a selected platform and no key holds an
      empty list; in particular `general` never appears. */
  lemma {:induction false} CollectKeys(selected: seq<PlatformKey>, errorsOf: PlatformKey -> seq<string>)
    ensures forall k :: k in Collect(selected, errorsOf) ==>
      exists p :: p in selected && k == KeyString(p) && Collect(selected, errorsOf)[k] == errorsOf(p) != []
    ensures GeneralKey !in Collect(selected, errorsOf)
    decreases |selected|
  {
    if selected != [] {
      var init := selected[..|selected| - 1];
      var q := selected[|selected| - 1];
      CollectKeys(init, errorsOf);
      assert selected == init + [q];
      KeyStringInjective(q, q);
    }
  }

  /** The result is empty exactly when no selected platform produced a message. */
  lemma CollectEmpty(selected: seq<PlatformKey>, errorsOf: PlatformKey -> seq<string>)
    ensures Collect(selected, errorsOf) == map[] <==> forall p :: p in selected ==> errorsOf(p) == []
  {
    forall p | p in selected && errorsOf(p) != []
      ensures Collect(selected, errorsOf) != map[]
    {
      CollectAt(selected, errorsOf, p);
    }
    if Collect(selected, errorsOf) != map[] {
      CollectKeys(selected, errorsOf);
      var k :| k in Collect(selected, errorsOf);
    }
  }

  // ---------------------------------------------------------------------------
  // The messages of a list of declarations

  /** The messages of a list of items, each item contributing its own, in order:
      how both validators gather the messages of a platform's declared fields. */
  function Concat<T>(xs: seq<T>, f: T -> seq<string>): seq<string>
    decreases |xs|
  {
    if xs == [] then [] else Concat(xs[..|xs| - 1], f) + f(xs[|xs| - 1])
  }

  /** A message is gathered exactly when some item contributes it. */
  lemma {:induction false} ConcatMembership<T>(xs: seq<T>, f: T -> seq<string>, msg: string)
    ensures msg in Concat(xs, f) <==> exists i :: 0 <= i < |xs| && msg in f(xs[i])
    decreases |xs|
  {
    if xs != [] {
      var k := |xs| - 1;
      var init := xs[..k];
      ConcatMembership(init, f, msg);
      assert Concat(xs, f) == Concat(init, f) + f(xs[k]);
      if msg in Concat(init, f) {
        var i :| 0 <= i < |init| && msg in f(init[i]);
        assert init[i] == xs[i];
      }
      if exists i :: 0 <= i < |xs| && msg in f(xs[i]) {
        var i :| 0 <= i < |xs| && msg in f(xs[i]);
        if i < k {
          assert init[i] == xs[i];
        }
      }
    }
  }

  /** The messages of two consecutive runs of items are those of the first run
      followed by those of the second. */
  lemma {:induction false} ConcatAppend<T>(xs: seq<T>, ys: seq<T>, f: T -> seq<string>)
    ensures Concat(xs + ys, f) == Concat(xs, f) + Concat(ys, f)
    decreases |ys|
  {
    if ys == [] {
      assert xs + ys == xs;
    } else {
      var init := ys[..|ys| - 1];
      var zs := xs + ys;
      ConcatAppend(xs, init, f);
      assert zs[..|zs| - 1] == xs + init;
      assert zs[|zs| - 1] == ys[|ys| - 1];
    }
  }
}
