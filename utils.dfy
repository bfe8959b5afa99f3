/**
  `mergeObjects`, the `_.defaults` clone of src/utils.ts: it fills a target
  object in place from a list of sources, left to right. A key is written
  only while the target's value for it is `undefined` or merely inherited
  from Object.prototype, so the first source that gives a key a value wins
  and values the target already owns are never replaced. The merge is
  shallow: a nested object is kept or copied whole.
 */
module Utils {
  import opened JsValue

  // ---------------------------------------------------------------------
  // Specification

  /** The guard of the inner loop: the target's value for `key` is `undefined`,
      or it is the inherited Object.prototype member and not an own property. */
  predicate Writable(t: Object, key: string) {
    var value := Lookup(t, key);
    value == Undefined || (value == ObjectPrototype(key) && key !in t)
  }

  /** The guard holds exactly when the target owns no defined value for the key. */
  lemma WritableIffNotDefined(t: Object, key: string)
    ensures Writable(t, key) <==> (key !in t || t[key] == Undefined)
  {
  }

  /** The target after the inner loop has visited the keys `done` of the enumerable properties `e`. */
  function FillOn(t: Object, e: Object, done: set<string>): Object {
    map k | k in t.Keys + (e.Keys * done) ::
      if k in done && k in e && Writable(t, k) then e[k] else t[k]
  }

  /** One iteration of `sources.forEach`: a null or undefined source is skipped,
      any other source fills every writable key it enumerates. */
  function FillFrom(t: Object, source: Value): Object {
    if Nullish(source) then t
    else FillOn(t, Enumerable(source), Enumerable(source).Keys)
  }

  /** The target's properties after `mergeObjects(target, ...sources)`. */
  function Defaults(t: Object, sources: seq<Value>): Object
    decreases |sources|
  {
    if sources == [] then t else Defaults(FillFrom(t, sources[0]), sources[1..])
  }

  // ---------------------------------------------------------------------
  // Reference definition, key by key

  /** Every key some source enumerates. */
  function SourceKeys(sources: seq<Value>): set<string>
    decreases |sources|
  {
    if sources == [] then {} else Enumerable(sources[0]).Keys + SourceKeys(sources[1..])
  }

  /** The value of `key` in the first source, left to right, that gives it a value other than `undefined`. */
  function FirstDefined(sources: seq<Value>, key: string): Value
    decreases |sources|
  {
    if sources == [] then Undefined
    else
      var e := Enumerable(sources[0]);
      if key in e && e[key] != Undefined then e[key] else FirstDefined(sources[1..], key)
  }

  /** The merge stated key by key: the target's defined values stay, every other key of
      the target or of a source takes the first defined value the sources give it. */
  function DefaultsRef(t: Object, sources: seq<Value>): Object {
    map k | k in t.Keys + SourceKeys(sources) ::
      if k in t && t[k] != Undefined then t[k] else FirstDefined(sources, k)
  }

  // ---------------------------------------------------------------------
  // The imperative merge

  /** A plain object whose own properties the merge updates in place. */
  class PlainObject {
    var props: Object

    constructor (props: Object)
      ensures this.props == props
    {
      this.props := props;
    }
  }

  /** `mergeObjects(object, ...sources)`. A null or undefined `object` (here `target == null`)
      becomes a fresh empty object; any other target is updated in place and returned. */
  method MergeObjects(target: PlainObject?, sources: seq<Value>) returns (r: PlainObject)
    modifies target
    ensures target != null ==> r == target
    ensures target == null ==> fresh(r)
    ensures r.props == Defaults(if target == null then map[] else old(target.props), sources)
  {
    if target == null {
      r := new PlainObject(map[]);
    } else {
      r := target;
    }
    ghost var start := r.props;
    var i := 0;
    while i < |sources|
      invariant 0 <= i <= |sources|
      invariant target != null ==> r == target
      invariant target == null ==> fresh(r)
      invariant Defaults(r.props, sources[i..]) == Defaults(start, sources)
    {
      assert sources[i..][1..] == sources[i + 1..];
      FillFromSource(r, sources[i]);
      i := i + 1;
    }
  }

  /** The body of the `forEach` callback: fill `o` from one source. */
  method FillFromSource(o: PlainObject, source: Value)
    modifies o
    ensures o.props == FillFrom(old(o.props), source)
  {
    if !Nullish(source) {
      var e := Enumerable(source);
      ghost var before := o.props;
      var keys := e.Keys;
      while keys != {}
        invariant keys <= e.Keys
        invariant o.props == FillOn(before, e, e.Keys - keys)
        decreases keys
      {
        var key :| key in keys;
        FillStep(before, e, keys, key);
        var value := Lookup(o.props, key);
        if value == Undefined || (value == ObjectPrototype(key) && key !in o.props) {
          o.props := o.props[key := e[key]];
        }
        keys := keys - {key};
      }
    }
  }

  /** Visiting one more key `k` extends the filled set by `k`. */
  lemma FillStep(t: Object, e: Object, todo: set<string>, k: string)
    requires k in todo && todo <= e.Keys
    ensures var p := FillOn(t, e, e.Keys - todo);
      FillOn(t, e, e.Keys - (todo - {k})) == if Writable(p, k) then p[k := e[k]] else p
  {
  }

  // ---------------------------------------------------------------------
  // Properties

  /** The one-step case: a null or undefined source changes nothing in the one
      `forEach` step that visits it. `NullishSourceIgnored` lifts this to the
      whole merge. */
  lemma NullishSourceSkipped(t: Object, source: Value)
    requires Nullish(source)
    ensures FillFrom(t, source) == t
  {
  }

  /** One source, key by key. */
  lemma FillFromAt(t: Object, source: Value, k: string)
    ensures k in FillFrom(t, source) <==> k in t || k in Enumerable(source)
    ensures k in t && t[k] != Undefined ==> FillFrom(t, source)[k] == t[k]
    ensures (k !in t || t[k] == Undefined) && k in Enumerable(source) ==>
              FillFrom(t, source)[k] == Enumerable(source)[k]
    ensures k in t && k !in Enumerable(source) ==> FillFrom(t, source)[k] == t[k]
  {
  }

  /** The fold and the key-by-key reference agree on every input. */
  lemma {:induction false} DefaultsIsRef(t: Object, sources: seq<Value>)
    ensures Defaults(t, sources) == DefaultsRef(t, sources)
    decreases |sources|
  {
    if sources != [] {
      var t' := FillFrom(t, sources[0]);
      DefaultsIsRef(t', sources[1..]);
      var a, b := DefaultsRef(t', sources[1..]), DefaultsRef(t, sources);
      forall k ensures k in a <==> k in b
        ensures k in b ==> a[k] == b[k]
      {
        RefStepAt(t, sources, k);
      }
      assert a == b;
    }
  }

  /** Folding in the first source, then the rest, agrees with the reference at key `k`. */
  lemma RefStepAt(t: Object, sources: seq<Value>, k: string)
    requires sources != []
    ensures var a, b := DefaultsRef(FillFrom(t, sources[0]), sources[1..]), DefaultsRef(t, sources);
      (k in a <==> k in b) && (k in b ==> a[k] == b[k])
  {
    FillFromAt(t, sources[0], k);
  }

  /** First wins: a value the target owns and that is not `undefined` is never overwritten. */
  lemma OwnDefinedKept(t: Object, sources: seq<Value>, k: string)
    requires k in t && t[k] != Undefined
    ensures k in Defaults(t, sources) && Defaults(t, sources)[k] == t[k]
  {
    DefaultsIsRef(t, sources);
  }

  /** A key the target lacks, or holds as `undefined`, takes the first defined value the
      sources give it; if every source that has it says `undefined`, it stays `undefined`. */
  lemma MissingKeyFilled(t: Object, sources: seq<Value>, k: string)
    requires k !in t || t[k] == Undefined
    requires k in SourceKeys(sources)
    ensures k in Defaults(t, sources) && Defaults(t, sources)[k] == FirstDefined(sources, k)
  {
    DefaultsIsRef(t, sources);
  }

  /** FirstDefined picks the leftmost source that gives the key a value other than
      `undefined`; earlier sources that give `undefined` do not block it. */
  lemma {:induction false} FirstDefinedIsLeftmost(sources: seq<Value>, k: string, i: nat)
    requires i < |sources|
    requires k in Enumerable(sources[i]) && Enumerable(sources[i])[k] != Undefined
    requires forall j :: 0 <= j < i ==>
               k !in Enumerable(sources[j]) || Enumerable(sources[j])[k] == Undefined
    ensures FirstDefined(sources, k) == Enumerable(sources[i])[k]
    decreases i
  {
    if i > 0 {
      forall j | 0 <= j < i - 1
        ensures k !in Enumerable(sources[1..][j]) || Enumerable(sources[1..][j])[k] == Undefined
      {
        assert sources[1..][j] == sources[j + 1];
      }
      FirstDefinedIsLeftmost(sources[1..], k, i - 1);
    }
  }

  lemma {:induction false} SourceKeysAt(sources: seq<Value>, k: string)
    ensures k in SourceKeys(sources) <==> exists i :: 0 <= i < |sources| && k in Enumerable(sources[i])
    decreases |sources|
  {
    if sources != [] {
      SourceKeysAt(sources[1..], k);
      if k in SourceKeys(sources[1..]) {
        var i :| 0 <= i < |sources[1..]| && k in Enumerable(sources[1..][i]);
        assert k in Enumerable(sources[i + 1]);
      }
      if exists i :: 0 <= i < |sources| && k in Enumerable(sources[i]) {
        var i :| 0 <= i < |sources| && k in Enumerable(sources[i]);
        if i > 0 {
          assert k in Enumerable(sources[1..][i - 1]);
        }
      }
    }
  }

  /** The result has the target's keys plus every key some source enumerates, and no other. */
  lemma ResultKeys(t: Object, sources: seq<Value>)
    ensures Defaults(t, sources).Keys == t.Keys + SourceKeys(sources)
  {
    DefaultsIsRef(t, sources);
  }

  /** Keys only the target has keep their values. */
  lemma TargetOnlyKeysKept(t: Object, sources: seq<Value>, k: string)
    requires k in t && k !in SourceKeys(sources)
    ensures k in Defaults(t, sources) && Defaults(t, sources)[k] == t[k]
  {
    DefaultsIsRef(t, sources);
    if t[k] == Undefined {
      FirstDefinedOutside(sources, k);
    }
  }

  lemma {:induction false} FirstDefinedOutside(sources: seq<Value>, k: string)
    requires k !in SourceKeys(sources)
    ensures FirstDefined(sources, k) == Undefined
    decreases |sources|
  {
    if sources != [] {
      FirstDefinedOutside(sources[1..], k);
    }
  }

  /** Shallow: a nested resolver map the target already has under `Query` is kept whole;
      nothing of a source's `Query` map is merged into it. */
  lemma QueryMapKeptWhole(t: Object, sources: seq<Value>)
    requires "Query" in t && t["Query"].Obj?
    ensures "Query" in Defaults(t, sources) && Defaults(t, sources)["Query"] == t["Query"]
  {
    OwnDefinedKept(t, sources, "Query");
  }

  /** A key named like an Object.prototype member (`toString`, `valueOf`, ...) that the target
      does not own reads as the inherited member, yet counts as absent: it takes the first
      defined value the sources give it. */
  lemma PrototypeNameFilled(t: Object, sources: seq<Value>, k: string)
    requires k in PrototypeNames && k !in t
    requires k in SourceKeys(sources)
    ensures Lookup(t, k) == ObjectPrototype(k) && Lookup(t, k) != Undefined
    ensures Writable(t, k)
    ensures k in Defaults(t, sources) && Defaults(t, sources)[k] == FirstDefined(sources, k)
  {
    MissingKeyFilled(t, sources, k);
  }

  /** Inserting a null or undefined source anywhere in the list changes nothing. */
  lemma {:induction false} NullishSourceIgnored(t: Object, sources: seq<Value>, i: nat, n: Value)
    requires i <= |sources| && Nullish(n)
    ensures Defaults(t, sources[..i] + [n] + sources[i..]) == Defaults(t, sources)
    decreases i
  {
    var withN := sources[..i] + [n] + sources[i..];
    if i == 0 {
      assert withN[0] == n && withN[1..] == sources;
    } else {
      var rest := sources[1..];
      assert withN[0] == sources[0];
      assert withN[1..] == rest[..i - 1] + [n] + rest[i - 1..];
      NullishSourceIgnored(FillFrom(t, sources[0]), rest, i - 1, n);
    }
  }

  /** Merging the same sources into the result a second time changes nothing. */
  lemma Idempotent(t: Object, sources: seq<Value>)
    ensures Defaults(Defaults(t, sources), sources) == Defaults(t, sources)
  {
    var d := Defaults(t, sources);
    DefaultsIsRef(t, sources);
    DefaultsIsRef(d, sources);
  }
}
