/**
  The field-synchronisation registry: config name -> path -> the ordered
  list of (owner object, field) bindings that follow that path. Config.java
  keeps it in the static map `updatingFields`, shared by every Config handle
  with the same file name.
 */
module Registry {
  import opened Values

  /** A `@ConfigSync` annotation: the config file and the path a field follows. */
  datatype Sync = Sync(config: string, path: string)

  /**
    A field declared by an owner's class. Like a reflected Java field, it
    knows its own annotation, if it has one.
   */
  datatype Field = Field(name: string, sync: Option<Sync>)

  /** Identity of an owner object. */
  type ObjectId = nat

  /** One binding: field `field` of object `instance`. */
  datatype FieldEntry = FieldEntry(instance: ObjectId, field: Field)

  /** Path -> bindings, for one config name. */
  type PathTable = map<string, seq<FieldEntry>>

  /** Config name -> path -> bindings. */
  type Table = map<string, PathTable>

  /** The bindings registered for (config, path); empty when there are none. */
  function Bindings(t: Table, config: string, path: string): seq<FieldEntry> {
    if config in t && path in t[config] then t[config][path] else []
  }

  /** Every binding of `t` sits under the config and path its field is annotated with. */
  ghost predicate Follows(config: string, t: PathTable) {
    forall p, e :: p in t && e in t[p] ==> e.field.sync == Some(Sync(config, p))
  }

  /**
    What registration maintains: bindings sit where their annotation says,
    and a name or path is present only once something is bound to it.
   */
  ghost predicate WellFormed(t: Table) {
    forall c :: c in t ==> t[c] != map[] && Follows(c, t[c]) && forall p :: p in t[c] ==> t[c][p] != []
  }

  /**
    One iteration of the loop in registerAnnotatedClass: an annotated field
    is appended to the list of its (config, path); any other field changes
    nothing.
   */
  function RegisterField(t: Table, instance: ObjectId, f: Field): (r: Table)
    ensures forall c, p ::
              Bindings(r, c, p) == Bindings(t, c, p) + (if f.sync == Some(Sync(c, p)) then [FieldEntry(instance, f)] else [])
    ensures WellFormed(t) ==> WellFormed(r)
  {
    match f.sync
    case None => t
    case Some(s) =>
      var paths := if s.config in t then t[s.config] else map[];
      var list := if s.path in paths then paths[s.path] else [];
      t[s.config := paths[s.path := list + [FieldEntry(instance, f)]]]
  }

  /** The registry after registering the fields `fields` of object `instance`, in order. */
  function Registered(t: Table, instance: ObjectId, fields: seq<Field>): Table
    decreases |fields|
  {
    if fields == [] then t
    else RegisterField(Registered(t, instance, fields[..|fields| - 1]), instance, fields[|fields| - 1])
  }

  /** The bindings of `instance` whose field carries annotation `s`, in the order the fields are given. */
  function Annotated(instance: ObjectId, fields: seq<Field>, s: Sync): seq<FieldEntry>
    decreases |fields|
  {
    if fields == [] then []
    else
      var last := fields[|fields| - 1];
      Annotated(instance, fields[..|fields| - 1], s) + (if last.sync == Some(s) then [FieldEntry(instance, last)] else [])
  }

  /**
    Registration appends, to the end of each (config, path) list, one
    binding per field annotated with that pair, and keeps the earlier
    entries in order; lists of other pairs are left as they were.
   */
  lemma {:induction false} RegisteredBindings(t: Table, instance: ObjectId, fields: seq<Field>, config: string, path: string)
    ensures Bindings(Registered(t, instance, fields), config, path) ==
      Bindings(t, config, path) + Annotated(instance, fields, Sync(config, path))
  {
    if fields != [] {
      RegisteredBindings(t, instance, fields[..|fields| - 1], config, path);
    }
  }

  /** The appended bindings are exactly those of the annotated fields of `instance`. */
  lemma {:induction false} AnnotatedExactly(instance: ObjectId, fields: seq<Field>, s: Sync, e: FieldEntry)
    ensures e in Annotated(instance, fields, s) <==> e.instance == instance && e.field in fields && e.field.sync == Some(s)
    ensures |Annotated(instance, fields, s)| <= |fields|
  {
    if fields != [] {
      var init := fields[..|fields| - 1];
      AnnotatedExactly(instance, init, s, e);
      assert fields == init + [fields[|fields| - 1]];
    }
  }

  /** Registering fields none of which is annotated with (config, path) leaves that pair's list as it was. */
  lemma {:induction false} RegisteredLeavesOthers(t: Table, instance: ObjectId, fields: seq<Field>, config: string, path: string)
    requires forall f :: f in fields ==> f.sync != Some(Sync(config, path))
    ensures Bindings(Registered(t, instance, fields), config, path) == Bindings(t, config, path)
  {
    if fields != [] {
      var init := fields[..|fields| - 1];
      assert forall f :: f in init ==> f in fields;
      RegisteredLeavesOthers(t, instance, init, config, path);
    }
  }

  /** Registration keeps the registry well formed. */
  lemma {:induction false} RegisteredWellFormed(t: Table, instance: ObjectId, fields: seq<Field>)
    requires WellFormed(t)
    ensures WellFormed(Registered(t, instance, fields))
  {
    if fields != [] {
      RegisteredWellFormed(t, instance, fields[..|fields| - 1]);
    }
  }

  /** The static `updatingFields` map of Config.java. */
  class FieldRegistry {
    var updatingFields: Table

    ghost predicate Valid()
      reads this
    {
      WellFormed(updatingFields)
    }

    constructor ()
      ensures Valid() && updatingFields == map[]
    {
      updatingFields := map[];
    }

    /**
      registerAnnotatedClass: `fields` are the fields the owner's class
      declares, each with its annotation, in the order
      `getDeclaredFields` returns them (Java fixes no particular order).
     */
    method RegisterAnnotatedClass(instance: ObjectId, fields: seq<Field>)
      requires Valid()
      modifies this
      ensures Valid()
      ensures updatingFields == Registered(old(updatingFields), instance, fields)
    {
      for i := 0 to |fields|
        invariant updatingFields == Registered(old(updatingFields), instance, fields[..i])
        invariant Valid()
      {
        var field := fields[i];
        assert fields[..i + 1][..i] == fields[..i];
        if field.sync.Some? {
          var sync := field.sync.value;
          var pathsFields: PathTable;
          var pathFields: seq<FieldEntry>;
          if sync.config in updatingFields {
            pathsFields := updatingFields[sync.config];
            if sync.path in pathsFields {
              pathFields := pathsFields[sync.path];
            } else {
              pathFields := [];
            }
          } else {
            pathsFields := map[];
            pathFields := [];
          }
          pathFields := pathFields + [FieldEntry(instance, field)];
          pathsFields := pathsFields[sync.path := pathFields];
          updatingFields := updatingFields[sync.config := pathsFields];
        }
      }
      assert fields[..|fields|] == fields;
    }
  }
}
