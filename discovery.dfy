/** First-discovery order over the fields of the selected platforms: walk the
    selection in order and each platform's fields in declaration order, and keep
    a field name the first time it is met. `getRequiredFields` (a `Set` filled in
    that walk) and the three rendering passes of the form (a `processedFields` set)
    all follow this rule. */
module Discovery {
  import opened Types
  import opened Registry

  /** One field declaration met during the walk: which platform declared it,
      under which name, with which configuration. */
  datatype Entry = Entry(platform: PlatformKey, name: string, config: FieldConfig)

  /** The declarations of one platform, in declaration order. */
  function EntriesOf(p: PlatformKey, fields: seq<(string, FieldConfig)>): (es: seq<Entry>)
    ensures |es| == |fields|
    ensures forall i :: 0 <= i < |fields| ==> es[i] == Entry(p, fields[i].0, fields[i].1)
  {
    seq(|fields|, i requires 0 <= i < |fields| => Entry(p, fields[i].0, fields[i].1))
  }

  lemma EntriesOfSnoc(before: seq<Entry>, p: PlatformKey, fields: seq<(string, FieldConfig)>, j: nat)
    requires j < |fields|
    ensures before + EntriesOf(p, fields[..j + 1])
      == (before + EntriesOf(p, fields[..j])) + [Entry(p, fields[j].0, fields[j].1)]
  {
    assert EntriesOf(p, fields[..j + 1]) == EntriesOf(p, fields[..j]) + [Entry(p, fields[j].0, fields[j].1)];
  }

  /** Every declaration met when walking `selected`, in walk order. */
  function Flatten(c: Copy, selected: seq<PlatformKey>): seq<Entry>
    decreases |selected|
  {
    if selected == [] then []
    else
      var p := selected[|selected| - 1];
      Flatten(c, selected[..|selected| - 1]) + EntriesOf(p, Fields(c, p))
  }

  lemma FlattenSnoc(c: Copy, selected: seq<PlatformKey>, i: nat)
    requires i < |selected|
    ensures Flatten(c, selected[..i + 1]) == Flatten(c, selected[..i]) + EntriesOf(selected[i], Fields(c, selected[i]))
  {
    assert selected[..i + 1][..i] == selected[..i];
  }

  /** A declaration in the walk is a field that its platform really declares,
      and every selected platform's declarations are met. */
  lemma {:induction false} FlattenMembership(c: Copy, selected: seq<PlatformKey>, e: Entry)
    ensures e in Flatten(c, selected) <==> e.platform in selected && (e.name, e.config) in Fields(c, e.platform)
    decreases |selected|
  {
    if selected != [] {
      var init := selected[..|selected| - 1];
      var p := selected[|selected| - 1];
      FlattenMembership(c, init, e);
      assert selected == init + [p];
      var es := EntriesOf(p, Fields(c, p));
      if e.platform == p && (e.name, e.config) in Fields(c, p) {
        var k :| 0 <= k < |Fields(c, p)| && Fields(c, p)[k] == (e.name, e.config);
        assert es[k] == e;
      }
    }
  }

  /** The names met in the walk are exactly the names the selected platforms declare. */
  lemma FlattenNames(c: Copy, selected: seq<PlatformKey>, n: string)
    ensures n in Seen(Flatten(c, selected)) <==> exists p :: p in selected && n in FieldNames(Fields(c, p))
  {
    var es := Flatten(c, selected);
    if n in Seen(es) {
      var i :| 0 <= i < |es| && es[i].name == n;
      FlattenMembership(c, selected, es[i]);
      var fs := Fields(c, es[i].platform);
      var k :| 0 <= k < |fs| && fs[k] == (n, es[i].config);
      assert FieldNames(fs)[k] == n;
    }
    if exists p :: p in selected && n in FieldNames(Fields(c, p)) {
      var p :| p in selected && n in FieldNames(Fields(c, p));
      var fs := Fields(c, p);
      var k :| 0 <= k < |fs| && FieldNames(fs)[k] == n;
      FlattenMembership(c, selected, Entry(p, n, fs[k].1));
      assert fs[k] == (n, fs[k].1);
    }
  }

  /** The names already met: the `processedFields` set after walking `es`. */
  function Seen(es: seq<Entry>): (s: set<string>)
    ensures forall n :: n in s <==> exists i :: 0 <= i < |es| && es[i].name == n
  {
    set i | 0 <= i < |es| :: es[i].name
  }

  lemma SeenSnoc(es: seq<Entry>, e: Entry)
    ensures Seen(es + [e]) == Seen(es) + {e.name}
  {
    assert forall i :: 0 <= i < |es| ==> (es + [e])[i] == es[i];
    assert (es + [e])[|es|] == e;
  }

  /** The position at which `name` is first met. */
  function FirstIndex(es: seq<Entry>, name: string): (k: nat)
    requires name in Seen(es)
    ensures k < |es| && es[k].name == name
    ensures forall i :: 0 <= i < k ==> es[i].name != name
    decreases |es|
  {
    var init := es[..|es| - 1];
    if name in Seen(init) then FirstIndex(init, name) else |es| - 1
  }

  /** Keep each name at its first declaration: what a walk that skips names
      already in `processedFields` produces. */
  function FirstByName(es: seq<Entry>): seq<Entry>
    decreases |es|
  {
    if es == [] then []
    else
      var init := es[..|es| - 1];
      var e := es[|es| - 1];
      if e.name in Seen(init) then FirstByName(init) else FirstByName(init) + [e]
  }

  lemma FirstByNameSnoc(es: seq<Entry>, e: Entry)
    ensures FirstByName(es + [e]) == if e.name in Seen(es) then FirstByName(es) else FirstByName(es) + [e]
  {
    assert (es + [e])[..|es|] == es;
  }

  /** `out` lists every name met in `es` once, each with its first declaration,
      in the order in which the names were first met. */
  ghost predicate IsFirstDiscovery(es: seq<Entry>, out: seq<Entry>)
  {
    && Seen(out) == Seen(es)
    && (forall i :: 0 <= i < |out| ==> out[i].name in Seen(es) && out[i] == es[FirstIndex(es, out[i].name)])
    && (forall i, j :: 0 <= i < j < |out| ==>
          out[i].name in Seen(es) && out[j].name in Seen(es) &&
          FirstIndex(es, out[i].name) < FirstIndex(es, out[j].name))
  }

  /** Appending a declaration does not move the first occurrence of a name
      that was already met. */
  lemma FirstIndexSnoc(es: seq<Entry>, e: Entry, n: string)
    requires n in Seen(es)
    ensures n in Seen(es + [e]) && FirstIndex(es + [e], n) == FirstIndex(es, n)
  {
    SeenSnoc(es, e);
    assert (es + [e])[..|es|] == es;
  }

  /** A declaration whose name was already met leaves the first discoveries as they were. */
  lemma FirstDiscoveryOld(init: seq<Entry>, e: Entry, out: seq<Entry>)
    requires IsFirstDiscovery(init, out) && e.name in Seen(init)
    ensures IsFirstDiscovery(init + [e], out)
  {
    var es := init + [e];
    SeenSnoc(init, e);
    forall i | 0 <= i < |out|
      ensures out[i].name in Seen(es) && out[i] == es[FirstIndex(es, out[i].name)]
    {
      FirstIndexSnoc(init, e, out[i].name);
    }
    forall i, j | 0 <= i < j < |out|
      ensures out[i].name in Seen(es) && out[j].name in Seen(es)
      ensures FirstIndex(es, out[i].name) < FirstIndex(es, out[j].name)
    {
      FirstIndexSnoc(init, e, out[i].name);
      FirstIndexSnoc(init, e, out[j].name);
    }
  }

  /** A declaration with a new name is discovered last. */
  lemma FirstDiscoveryNew(init: seq<Entry>, e: Entry, out: seq<Entry>)
    requires IsFirstDiscovery(init, out) && e.name !in Seen(init)
    ensures IsFirstDiscovery(init + [e], out + [e])
  {
    var es := init + [e];
    var out' := out + [e];
    SeenSnoc(init, e);
    SeenSnoc(out, e);
    assert es[..|es| - 1] == init;
    assert FirstIndex(es, e.name) == |init|;
    forall i | 0 <= i < |out'|
      ensures out'[i].name in Seen(es) && out'[i] == es[FirstIndex(es, out'[i].name)]
    {
      if i < |out| {
        FirstIndexSnoc(init, e, out[i].name);
      }
    }
    forall i, j | 0 <= i < j < |out'|
      ensures out'[i].name in Seen(es) && out'[j].name in Seen(es)
      ensures FirstIndex(es, out'[i].name) < FirstIndex(es, out'[j].name)
    {
      FirstIndexSnoc(init, e, out[i].name);
      if j < |out| {
        FirstIndexSnoc(init, e, out[j].name);
      }
    }
  }

  /** FirstByName keeps exactly the first discoveries, in discovery order. */
  lemma {:induction false} FirstByNameIsFirstDiscovery(es: seq<Entry>)
    ensures IsFirstDiscovery(es, FirstByName(es))
    decreases |es|
  {
    if es != [] {
      var init := es[..|es| - 1];
      var e := es[|es| - 1];
      assert es == init + [e];
      FirstByNameIsFirstDiscovery(init);
      if e.name in Seen(init) {
        FirstDiscoveryOld(init, e, FirstByName(init));
      } else {
        FirstDiscoveryNew(init, e, FirstByName(init));
      }
    }
  }

  /** No name is kept twice. */
  lemma FirstDiscoveryNoDuplicates(es: seq<Entry>, out: seq<Entry>)
    requires IsFirstDiscovery(es, out)
    ensures forall i, j :: 0 <= i < j < |out| ==> out[i].name != out[j].name
  {
  }

  /** The names of a list of declarations, in order. */
  function Names(es: seq<Entry>): (names: seq<string>)
    ensures |names| == |es|
    ensures forall i :: 0 <= i < |es| ==> names[i] == es[i].name
  {
    seq(|es|, i requires 0 <= i < |es| => es[i].name)
  }
}
