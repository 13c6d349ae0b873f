/**
  The sync engine: pushing configuration values into the bound fields.
  Fields of owner objects are modelled as a store from binding (object,
  field) to the value the field currently holds; Java's reflective
  `Field.set` becomes an update of that store.
 */
module SyncEngine {
  import opened Values
  import opened Registry
  import opened Documents

  /** The value held by field `e.field` of object `e.instance`, for every field written so far. */
  type Store = map<FieldEntry, Value>

  /**
    The inner loop of updateFields and updateAllFields: `v` assigned, in
    list order, into each binding of `es`. Afterwards every listed field
    holds `v`, and every other field holds what it held before.
   */
  function Assigned(h: Store, es: seq<FieldEntry>, v: Value): (r: Store)
    ensures r.Keys == h.Keys + set e | e in es
    ensures forall e :: e in r ==> r[e] == if e in es then v else h[e]
    decreases |es|
  {
    if es == [] then h
    else Assigned(h, es[..|es| - 1], v)[es[|es| - 1] := v]
  }

  /** Path `p` is set in `doc` to a value other than null. */
  predicate Live(doc: Document, p: string) {
    p in doc && doc[p] != Null
  }

  /** The bindings of `t` whose path is live in `doc`. */
  function Targets(t: PathTable, doc: Document): set<FieldEntry> {
    set p, e | p in t && Live(doc, p) && e in t[p] :: e
  }

  /** The part of `t` for the paths in `keys`. */
  function Restrict(t: PathTable, keys: set<string>): (r: PathTable)
    ensures r.Keys == t.Keys * keys
  {
    map p | p in t && p in keys :: t[p]
  }

  /**
    The store after the bulk sync of updateAllFields for the bindings `t`
    of config `config`: each field bound to a live path holds the document's
    value at that path, and every other field is left untouched.
   */
  function Pushed(h: Store, config: string, t: PathTable, doc: Document): (r: Store)
    requires Follows(config, t)
    ensures r.Keys == h.Keys + Targets(t, doc)
    ensures forall p, e :: p in t && Live(doc, p) && e in t[p] ==> r[e] == doc[p]
    ensures forall e :: e in h && e !in Targets(t, doc) ==> r[e] == h[e]
  {
    map e | e in h.Keys + Targets(t, doc) ::
      if e in Targets(t, doc) then doc[e.field.sync.value.path] else h[e]
  }

  /** Bulk sync of config `config` over a whole registry (nothing is bound when the name is absent). */
  function PushedAll(h: Store, reg: Table, config: string, doc: Document): (r: Store)
    requires WellFormed(reg)
    ensures config !in reg ==> r == h
    ensures forall path, e :: Live(doc, path) && e in Bindings(reg, config, path) ==> e in r && r[e] == doc[path]
    ensures forall e :: e in h && (forall path :: Live(doc, path) ==> e !in Bindings(reg, config, path)) ==> e in r && r[e] == h[e]
  {
    if config in reg then Pushed(h, config, reg[config], doc) else h
  }

  /**
    After a write of `v` at `path` followed by the single-path sync, every
    bound field holds exactly what get(path) reads from the new document.
   */
  lemma WrittenFieldsMatchDocument(h: Store, doc: Document, es: seq<FieldEntry>, path: string, v: Value)
    ensures forall e :: e in es ==> e in Assigned(h, es, v) && Assigned(h, es, v)[e] == Read(Some(Written(doc, path, v)), path)
  {
  }

  /** Bulk sync over no paths changes nothing. */
  lemma PushedNothing(h: Store, config: string, doc: Document)
    ensures Follows(config, map[]) && Pushed(h, config, map[], doc) == h
  {
    assert Targets(map[], doc) == {};
  }

  /**
    Bulk sync path by path: adding path `p` to the synced part assigns the
    document's value at `p` to the bindings of `p` when `p` is live, and
    otherwise changes nothing. Because each field follows one path, the
    order in which paths are taken does not matter.
   */
  lemma PushedStep(h: Store, config: string, t: PathTable, done: set<string>, p: string, doc: Document)
    requires Follows(config, t) && p in t && p !in done
    ensures Follows(config, Restrict(t, done)) && Follows(config, Restrict(t, done + {p}))
    ensures Pushed(h, config, Restrict(t, done + {p}), doc) ==
              if Live(doc, p) then Assigned(Pushed(h, config, Restrict(t, done), doc), t[p], doc[p])
              else Pushed(h, config, Restrict(t, done), doc)
  {
    var before, after := Restrict(t, done), Restrict(t, done + {p});
    var here := set e | e in t[p];
    assert Targets(after, doc) == Targets(before, doc) + (if Live(doc, p) then here else {}) by {
      forall e | e in Targets(after, doc)
        ensures e in Targets(before, doc) + (if Live(doc, p) then here else {})
      {
        var q :| q in after && Live(doc, q) && e in after[q];
        if q != p {
          assert q in before && e in before[q];
        }
      }
      forall e | e in Targets(before, doc)
        ensures e in Targets(after, doc)
      {
        var q :| q in before && Live(doc, q) && e in before[q];
        assert q in after && e in after[q];
      }
      if Live(doc, p) {
        forall e | e in here
          ensures e in Targets(after, doc)
        {
          assert p in after && e in after[p];
        }
      }
    }
    forall e | e in Targets(before, doc)
      ensures e.field.sync.Some? && e.field.sync.value.path in done
    {
      var q :| q in before && Live(doc, q) && e in before[q];
    }
    var lhs := Pushed(h, config, after, doc);
    var mid := Pushed(h, config, before, doc);
    if Live(doc, p) {
      var rhs := Assigned(mid, t[p], doc[p]);
      forall e | e in lhs
        ensures e in rhs && lhs[e] == rhs[e]
      {
        if e in here {
          assert lhs[e] == doc[p];
        } else if e in Targets(before, doc) {
          var q :| q in before && Live(doc, q) && e in before[q];
          assert lhs[e] == doc[q] == mid[e];
        }
      }
      assert lhs == rhs;
    } else {
      forall e | e in lhs
        ensures e in mid && lhs[e] == mid[e]
      {
        if e in Targets(before, doc) {
          var q :| q in before && Live(doc, q) && e in before[q];
          assert lhs[e] == doc[q] == mid[e];
        }
      }
      assert lhs == mid;
    }
  }

  /** The fields of the owner objects, written through reflection by Config. */
  class FieldStore {
    var values: Store

    constructor (initial: Store)
      ensures values == initial
    {
      values := initial;
    }
  }
}
