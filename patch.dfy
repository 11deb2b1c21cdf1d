/**
 * The JSON Patch builder shared by UpdateAudit, UpdateActionPlan and
 * UpdateAuditTemplate: one "replace" operation (section 4.3 of RFC 6902)
 * per entry of the update map, its path the key under the document root.
 * Go ranges over the map in no fixed order, so the builder picks keys in
 * an unspecified order and its contract does not depend on it.
 */
module JsonPatch {

  /** One operation object: {"op": op, "path": path, "value": value}. */
  datatype Patch<V> = Patch(op: string, path: string, value: V)

  const Replace: string := "replace"

  /** The path "/" + key, as the source builds it. It is the JSON Pointer to
    * member `key` of the document root only when `key` holds no "/" or "~",
    * since the escaping of section 3 of RFC 6901 is not applied. */
  function PointerTo(key: string): string {
    "/" + key
  }

  /** The member a single-step pointer names. */
  function PointerKey(path: string): string
    requires |path| >= 1
  {
    path[1..]
  }

  lemma PointerRoundTrip(key: string)
    ensures |PointerTo(key)| >= 1 && PointerTo(key)[0] == '/'
    ensures PointerKey(PointerTo(key)) == key
  {
  }

  lemma PointerInjective(a: string, b: string)
    ensures PointerTo(a) == PointerTo(b) <==> a == b
  {
    if PointerTo(a) == PointerTo(b) {
      PointerRoundTrip(a);
      PointerRoundTrip(b);
    }
  }

  /** `p` replaces some member of `updates` with that member's value. */
  ghost predicate ReplacesMember<V>(p: Patch<V>, updates: map<string, V>) {
    && p.op == Replace
    && |p.path| >= 1 && p.path[0] == '/'
    && PointerKey(p.path) in updates
    && p.value == updates[PointerKey(p.path)]
  }

  /** `patches` is a patch list for `updates`: one operation per key, each a
    * "replace" of "/" + key with that key's value, no path twice. */
  ghost predicate ReplacesExactly<V>(patches: seq<Patch<V>>, updates: map<string, V>) {
    && |patches| == |updates|
    && (forall i :: 0 <= i < |patches| ==> ReplacesMember(patches[i], updates))
    && (forall k :: k in updates ==> Patch(Replace, PointerTo(k), updates[k]) in patches)
    && (forall i, j :: 0 <= i < j < |patches| ==> patches[i].path != patches[j].path)
  }

  /** Moving one key from the pending set to the done set. */
  lemma OneMoreDone(all: set<string>, pending: set<string>, k: string)
    requires k in pending && pending <= all
    ensures all - (pending - {k}) == (all - pending) + {k}
    ensures |all - (pending - {k})| == |all - pending| + 1
  {
    assert k !in all - pending;
  }

  /** The loop state after the keys outside `pending` have been handled. */
  ghost predicate Built<V>(patches: seq<Patch<V>>, updates: map<string, V>, pending: set<string>) {
    && pending <= updates.Keys
    && |patches| == |updates.Keys - pending|
    && (forall i :: 0 <= i < |patches| ==>
          ReplacesMember(patches[i], updates) && PointerKey(patches[i].path) !in pending)
    && (forall k :: k in updates.Keys - pending ==> Patch(Replace, PointerTo(k), updates[k]) in patches)
    && (forall i, j :: 0 <= i < j < |patches| ==> patches[i].path != patches[j].path)
  }

  /** One iteration: the patch for `key` keeps the loop state. */
  lemma BuiltStep<V>(patches: seq<Patch<V>>, updates: map<string, V>, pending: set<string>, key: string)
    requires Built(patches, updates, pending) && key in pending
    ensures Built(patches + [Patch(Replace, PointerTo(key), updates[key])], updates, pending - {key})
  {
    OneMoreDone(updates.Keys, pending, key);
    var p := Patch(Replace, PointerTo(key), updates[key]);
    var next := patches + [p];
    PointerRoundTrip(key);
    assert ReplacesMember(p, updates);
    forall i | 0 <= i < |next| ensures ReplacesMember(next[i], updates) && PointerKey(next[i].path) !in pending - {key} {
      if i < |patches| {
        assert next[i] == patches[i];
      }
    }
    forall k | k in updates.Keys - (pending - {key}) ensures Patch(Replace, PointerTo(k), updates[k]) in next {
      if k != key {
        assert Patch(Replace, PointerTo(k), updates[k]) in patches;
      }
    }
    forall i, j | 0 <= i < j < |next| ensures next[i].path != next[j].path {
      if j == |patches| {
        assert PointerKey(patches[i].path) != key;
      } else {
        assert next[i] == patches[i] && next[j] == patches[j];
      }
    }
  }

  /** With nothing pending, the loop state is a complete patch list. */
  lemma BuiltDone<V>(patches: seq<Patch<V>>, updates: map<string, V>)
    requires Built(patches, updates, {})
    ensures ReplacesExactly(patches, updates)
  {
    assert updates.Keys - {} == updates.Keys;
  }

  /** The loop of the Update* operations. */
  method ReplacePatches<V>(updates: map<string, V>) returns (patches: seq<Patch<V>>)
    ensures ReplacesExactly(patches, updates)
  {
    patches := [];
    var pending := updates.Keys;
    while pending != {}
      invariant Built(patches, updates, pending)
      decreases pending
    {
      var key :| key in pending;
      BuiltStep(patches, updates, pending, key);
      patches := patches + [Patch(Replace, PointerTo(key), updates[key])];
      pending := pending - {key};
    }
    BuiltDone(patches, updates);
  }

  /** A patch list names each member once, so the operation for a key is
    * determined: whichever patch has that path carries that key's value. */
  lemma ReplacesExactlyLookup<V>(patches: seq<Patch<V>>, updates: map<string, V>, i: int)
    requires ReplacesExactly(patches, updates)
    requires 0 <= i < |patches|
    ensures |patches[i].path| >= 1 && PointerKey(patches[i].path) in updates
    ensures patches[i] == Patch(Replace, PointerTo(PointerKey(patches[i].path)), updates[PointerKey(patches[i].path)])
  {
    var p := patches[i];
    assert p.path == [p.path[0]] + p.path[1..];
  }

  /** An empty update map gives an empty patch list (still sent with PATCH). */
  lemma NoUpdatesNoPatches<V>(patches: seq<Patch<V>>)
    requires ReplacesExactly(patches, map[])
    ensures patches == []
  {
  }

  /** A single update gives exactly one operation. */
  lemma SingleUpdate<V>(patches: seq<Patch<V>>, key: string, value: V)
    requires ReplacesExactly(patches, map[key := value])
    ensures patches == [Patch(Replace, PointerTo(key), value)]
  {
    var u := map[key := value];
    assert |u| == 1 by {
      assert u.Keys == {key};
    }
    ReplacesExactlyLookup(patches, u, 0);
  }
}
