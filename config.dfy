/**
  The Config handle of Config.java: one named YAML file in a folder, its
  loaded document (null until initialize loads it), the options that decide
  auto-reload and auto-save, and the hooks that push values into the fields
  registered for the handle's name.

  Config.java's statics and the world outside the handle are shared objects
  given to the constructors: the field registry (`updatingFields`), the
  process-wide default options (`defaultOptions`), the fields of the owner
  objects, and the disk.
 */
module ConfigHandle {
  import opened Values
  import opened Registry
  import opened SyncEngine
  import opened Documents
  import opened Options

  /** How a call ends: normally, or with an exception raised by a null reference escaping it. */
  datatype Outcome = Completed | NullReference

  class Config {
    const registry: FieldRegistry
    const store: FieldStore
    const disk: Disk
    const defaultOptions: ConfigOptions
    const name: string
    /** The folder; null when no default location was configured. */
    const path: Option<string>
    var fullPath: Option<string>
    var options: ConfigOptions
    /** The loaded document; null until loaded. */
    var fileConfiguration: Option<Document>

    /** A document is only ever loaded from a known file. */
    ghost predicate Valid()
      reads this
    {
      fileConfiguration.Some? ==> fullPath.Some?
    }

    /** Neither the file nor the document is known yet. */
    ghost predicate Unopened()
      reads this
    {
      fullPath == None && fileConfiguration == None
    }

    /** The handle works on these shared objects. */
    ghost predicate Shares(defaultOptions: ConfigOptions, registry: FieldRegistry, store: FieldStore, disk: Disk)
      reads this
    {
      this.defaultOptions == defaultOptions && this.registry == registry && this.store == store && this.disk == disk
    }

    /** Config(): "config.yml" in the default folder, with a copy of the default options. */
    constructor Default(defaultOptions: ConfigOptions, registry: FieldRegistry, store: FieldStore, disk: Disk)
      ensures Valid() && Unopened() && Shares(defaultOptions, registry, store, disk)
      ensures name == "config.yml" && path == defaultOptions.GetDefaultLocation()
      ensures fresh(options) && options.CopyOf(defaultOptions)
    {
      this.defaultOptions, this.registry, this.store, this.disk := defaultOptions, registry, store, disk;
      this.name := "config.yml";
      this.path := defaultOptions.GetDefaultLocation();
      this.options := new ConfigOptions.Copy(defaultOptions);
      this.fullPath, this.fileConfiguration := None, None;
    }

    /** Config(name): file `name` in the default folder, with a copy of the default options. */
    constructor Named(name: string, defaultOptions: ConfigOptions, registry: FieldRegistry, store: FieldStore, disk: Disk)
      ensures Valid() && Unopened() && Shares(defaultOptions, registry, store, disk)
      ensures this.name == name && path == defaultOptions.GetDefaultLocation()
      ensures fresh(options) && options.CopyOf(defaultOptions)
    {
      this.defaultOptions, this.registry, this.store, this.disk := defaultOptions, registry, store, disk;
      this.name := name;
      this.path := defaultOptions.GetDefaultLocation();
      this.options := new ConfigOptions.Copy(defaultOptions);
      this.fullPath, this.fileConfiguration := None, None;
    }

    /** Config(name, path): file `name` in folder `path`, with a copy of the default options. */
    constructor At(name: string, path: Option<string>, defaultOptions: ConfigOptions, registry: FieldRegistry, store: FieldStore, disk: Disk)
      ensures Valid() && Unopened() && Shares(defaultOptions, registry, store, disk)
      ensures this.name == name && this.path == path
      ensures fresh(options) && options.CopyOf(defaultOptions)
    {
      this.defaultOptions, this.registry, this.store, this.disk := defaultOptions, registry, store, disk;
      this.name := name;
      this.path := path;
      this.options := new ConfigOptions.Copy(defaultOptions);
      this.fullPath, this.fileConfiguration := None, None;
    }

    /** The handle uses `newOptions` itself, not a copy: later changes to it are seen. */
    method SetOptions(newOptions: ConfigOptions) returns (r: Config)
      modifies this`options
      ensures r == this && options == newOptions
    {
      options := newOptions;
      r := this;
    }

    /**
      saveConfig: truncate the file, then write the document into it. With
      no file the first step throws; with a file but no document the file is
      left empty and the second step throws.
     */
    method SaveConfig() returns (outcome: Outcome)
      requires Valid()
      modifies disk`files
      ensures fullPath.None? ==> outcome == NullReference && disk.files == old(disk.files)
      ensures fullPath.Some? && fileConfiguration.None? ==>
                outcome == NullReference && disk.files == old(disk.files)[fullPath.value := map[]]
      ensures fileConfiguration.Some? ==>
                outcome == Completed && disk.files == old(disk.files)[fullPath.value := fileConfiguration.value]
    {
      if fullPath.None? {
        return NullReference;
      }
      disk.files := disk.files[fullPath.value := map[]];
      if fileConfiguration.None? {
        return NullReference;
      }
      disk.files := disk.files[fullPath.value := fileConfiguration.value];
      outcome := Completed;
    }

    /**
      reloadConfig: replace the document by the file's current content,
      dropping unsaved changes. It does not sync fields, and it depends on
      the disk alone, so repeating it gives the same document.
     */
    method ReloadConfig() returns (outcome: Outcome)
      requires Valid()
      modifies this`fileConfiguration
      ensures Valid()
      ensures fullPath.None? ==> outcome == NullReference && fileConfiguration == old(fileConfiguration)
      ensures fullPath.Some? ==> outcome == Completed && fileConfiguration == Some(Load(disk.files, fullPath.value))
    {
      if fullPath.None? {
        return NullReference;
      }
      fileConfiguration := Some(Load(disk.files, fullPath.value));
      outcome := Completed;
    }

    /** Assign `value` into each field of `entries`, in order (the inner loops of updateFields and updateAllFields). */
    method PushValue(entries: seq<FieldEntry>, value: Value)
      modifies store
      ensures store.values == Assigned(old(store.values), entries, value)
    {
      for i := 0 to |entries|
        invariant store.values == Assigned(old(store.values), entries[..i], value)
      {
        assert entries[..i + 1][..i] == entries[..i];
        store.values := store.values[entries[i] := value];
      }
      assert entries[..|entries|] == entries;
    }

    /**
      updateFields: every field bound to (name, path) now holds `value`;
      every other field is unchanged, and nothing changes at all when the
      name or the path has no bindings.
     */
    method UpdateFields(path: string, value: Value)
      modifies store
      ensures store.values == Assigned(old(store.values), Bindings(registry.updatingFields, name, path), value)
      ensures name !in registry.updatingFields || path !in registry.updatingFields[name] ==> unchanged(store)
    {
      if name in registry.updatingFields {
        var paths := registry.updatingFields[name];
        if path in paths {
          PushValue(paths[path], value);
        }
      }
    }

    /**
      updateAllFields: every field bound to a path of this name that the
      document sets to a non-null value takes that value; fields of unset
      or null paths are untouched. With bindings but no document, the first
      lookup in the document throws before any field changes.
     */
    method UpdateAllFields() returns (outcome: Outcome)
      requires Valid() && registry.Valid()
      modifies store
      ensures outcome == if fileConfiguration.None? && name in registry.updatingFields then NullReference else Completed
      ensures fileConfiguration.Some? ==>
                store.values == PushedAll(old(store.values), registry.updatingFields, name, fileConfiguration.value)
      ensures fileConfiguration.None? ==> unchanged(store)
    {
      if name !in registry.updatingFields {
        return Completed;
      }
      var temp := registry.updatingFields[name];
      if fileConfiguration.None? {
        // `temp` is never empty (WellFormed), so the first path's isSet throws.
        return NullReference;
      }
      var doc := fileConfiguration.value;
      var todo := temp.Keys;
      ghost var done: set<string> := {};
      ghost var start := store.values;
      PushedNothing(start, name, doc);
      assert Restrict(temp, done) == map[];
      while todo != {}
        invariant todo <= temp.Keys && done == temp.Keys - todo
        invariant Follows(name, Restrict(temp, done))
        invariant store.values == Pushed(start, name, Restrict(temp, done), doc)
        decreases todo
      {
        var p :| p in todo;
        PushedStep(start, name, temp, done, p, doc);
        if p in doc && doc[p] != Null {
          PushValue(temp[p], doc[p]);
        }
        todo := todo - {p};
        done := done + {p};
      }
      assert done == temp.Keys;
      assert Restrict(temp, done) == temp;
      assert store.values == Pushed(start, name, temp, doc);
      outcome := Completed;
    }

    /** A new file is created and the configured template cannot be found: initialize stops early. */
    ghost predicate TemplateMissing(files: map<string, Document>, resources: map<string, Document>)
      reads this, options
      requires path.Some?
    {
      && Child(path.value, name) !in files
      && options.GetSetDefaults().Some?
      && options.GetSetDefaults().value !in resources
    }

    /** The document initialize loads when it does not stop early. */
    ghost function Seeded(files: map<string, Document>, resources: map<string, Document>): Document
      reads this, options
      requires path.Some?
    {
      var file := Child(path.value, name);
      if file in files then files[file]
      else if options.GetSetDefaults().Some? && options.GetSetDefaults().value in resources then
        resources[options.GetSetDefaults().value]
      else map[]
    }

    /**
      initialize: create the folder and the file if missing, seed a new
      file from the configured bundled template, load the document and
      bulk-sync the bound fields. `resources` maps a resource name to the
      document the class loader of the registering instance supplies.
      When the template is missing the file is left empty and nothing is
      loaded or synced. A null folder throws before anything happens.
     */
    method Initialize(resources: map<string, Document>) returns (outcome: Outcome)
      requires Valid() && registry.Valid()
      modifies this`fullPath, this`fileConfiguration, disk, store
      ensures Valid()
      ensures path.None? ==>
                && outcome == NullReference && fullPath == old(fullPath)
                && fileConfiguration == old(fileConfiguration)
                && unchanged(disk) && unchanged(store)
      ensures path.Some? ==>
                && outcome == Completed
                && fullPath == Some(Child(path.value, name))
                && disk.dirs == old(disk.dirs) + {path.value}
      ensures path.Some? && TemplateMissing(old(disk.files), resources) ==>
                && fileConfiguration == old(fileConfiguration)
                && disk.files == old(disk.files)[fullPath.value := map[]]
                && unchanged(store)
      ensures path.Some? && !TemplateMissing(old(disk.files), resources) ==>
                && fileConfiguration == Some(Seeded(old(disk.files), resources))
                && disk.files == old(disk.files)[fullPath.value := fileConfiguration.value]
                && store.values == PushedAll(old(store.values), registry.updatingFields, name, fileConfiguration.value)
    {
      if path.None? {
        return NullReference;
      }
      var folder := path.value;
      if folder !in disk.dirs {
        disk.dirs := disk.dirs + {folder};
      }
      fullPath := Some(Child(folder, name));
      var file := fullPath.value;
      if file !in disk.files {
        disk.files := disk.files[file := map[]];
        if options.GetSetDefaults().Some? {
          var resource := options.GetSetDefaults().value;
          if resource !in resources {
            return Completed;
          }
          disk.files := disk.files[file := resources[resource]];
          LoadAndSync(file);
          return Completed;
        }
      }
      LoadAndSync(file);
      outcome := Completed;
    }

    /** The two steps that end initialize: load the document from `file`, then bulk-sync the bound fields. */
    method LoadAndSync(file: string)
      requires fullPath == Some(file) && registry.Valid()
      modifies this`fileConfiguration, store
      ensures Valid() && fileConfiguration == Some(Load(disk.files, file))
      ensures store.values == PushedAll(old(store.values), registry.updatingFields, name, fileConfiguration.value)
    {
      fileConfiguration := Some(Load(disk.files, file));
      var _ := UpdateAllFields();
    }

    /** The document a read works on: reloaded from disk first when auto-reload is on and a document is loaded. */
    function Refreshed(before: Option<Document>): Option<Document>
      reads this, options, disk
      requires before.Some? ==> fullPath.Some?
    {
      if before.Some? && options.GetEnableAutoReload() then Some(Load(disk.files, fullPath.value)) else before
    }

    /** The prologue of every accessor: nothing when unloaded, else reload if auto-reload is on. */
    method ReloadIfEnabled()
      requires Valid()
      modifies this`fileConfiguration
      ensures Valid() && fileConfiguration == Refreshed(old(fileConfiguration))
    {
      if fileConfiguration.Some? && options.GetEnableAutoReload() {
        var _ := ReloadConfig();
      }
    }

    method Get(path: string) returns (r: Value)
      requires Valid()
      modifies this`fileConfiguration
      ensures Valid() && fileConfiguration == Refreshed(old(fileConfiguration))
      ensures r == Read(fileConfiguration, path)
    {
      ReloadIfEnabled();
      r := Read(fileConfiguration, path);
    }

    method GetOr(path: string, def: Value) returns (r: Value)
      requires Valid()
      modifies this`fileConfiguration
      ensures Valid() && fileConfiguration == Refreshed(old(fileConfiguration))
      ensures r == ReadOr(fileConfiguration, path, def)
    {
      ReloadIfEnabled();
      r := ReadOr(fileConfiguration, path, def);
    }

    method Contains(path: string) returns (r: bool)
      requires Valid()
      modifies this`fileConfiguration
      ensures Valid() && fileConfiguration == Refreshed(old(fileConfiguration))
      ensures r == Has(fileConfiguration, path)
    {
      ReloadIfEnabled();
      r := Has(fileConfiguration, path);
    }

    method GetInt(path: string) returns (r: int)
      requires Valid()
      modifies this`fileConfiguration
      ensures Valid() && fileConfiguration == Refreshed(old(fileConfiguration))
      ensures r == IntAt(fileConfiguration, path)
    {
      ReloadIfEnabled();
      r := IntAt(fileConfiguration, path);
    }

    method GetIntOr(path: string, def: int) returns (r: int)
      requires Valid()
      modifies this`fileConfiguration
      ensures Valid() && fileConfiguration == Refreshed(old(fileConfiguration))
      ensures r == IntOr(fileConfiguration, path, def)
    {
      ReloadIfEnabled();
      r := IntOr(fileConfiguration, path, def);
    }

    method GetString(path: string) returns (r: Option<string>)
      requires Valid()
      modifies this`fileConfiguration
      ensures Valid() && fileConfiguration == Refreshed(old(fileConfiguration))
      ensures r == StringAt(fileConfiguration, path)
    {
      ReloadIfEnabled();
      r := StringAt(fileConfiguration, path);
    }

    /** getString(path, def), with the default returned on an unloaded handle too. */
    method GetStringOr(path: string, def: string) returns (r: Option<string>)
      requires Valid()
      modifies this`fileConfiguration
      ensures Valid() && fileConfiguration == Refreshed(old(fileConfiguration))
      ensures r == StringOr(fileConfiguration, path, def)
    {
      ReloadIfEnabled();
      r := StringOr(fileConfiguration, path, def);
    }

    /**
      The state after a write of `value` at `path` on a loaded handle whose
      document, files and fields were `doc0`, `files0` and `values0`: the
      document holds `value` at `path` (null removes the path); the file
      holds the new document when auto-save is on and is untouched
      otherwise; the fields bound to (name, path) hold `value` whatever
      auto-save says.
     */
    ghost predicate WroteThrough(doc0: Document, files0: map<string, Document>, values0: Store, path: string, value: Value)
      reads this, options, disk, store, registry
    {
      && fullPath.Some?
      && fileConfiguration == Some(Written(doc0, path, value))
      && disk.files == (if options.GetEnableAutoSave() then files0[fullPath.value := Written(doc0, path, value)] else files0)
      && store.values == Assigned(values0, Bindings(registry.updatingFields, name, path), value)
    }

    /** set: a no-op on an unloaded handle; otherwise write, save if auto-save is on, sync the path's fields. */
    method Set(path: string, value: Value)
      requires Valid()
      modifies this`fileConfiguration, disk`files, store
      ensures Valid()
      ensures old(fileConfiguration).None? ==>
                fileConfiguration == None && unchanged(disk) && unchanged(store)
      ensures old(fileConfiguration).Some? ==>
                WroteThrough(old(fileConfiguration).value, old(disk.files), old(store.values), path, value)
    {
      if fileConfiguration.Some? {
        fileConfiguration := Some(Written(fileConfiguration.value, path, value));
        if options.GetEnableAutoSave() {
          var _ := SaveConfig();
        }
        UpdateFields(path, value);
      }
    }

    /** createSection(path): as set, with a new empty section as the value, which is returned (null when unloaded). */
    method CreateSection(path: string) returns (r: Option<Value>)
      requires Valid()
      modifies this`fileConfiguration, disk`files, store
      ensures Valid()
      ensures old(fileConfiguration).None? ==>
                r == None && fileConfiguration == None && unchanged(disk) && unchanged(store)
      ensures old(fileConfiguration).Some? ==>
                && r == Some(Section(map[]))
                && WroteThrough(old(fileConfiguration).value, old(disk.files), old(store.values), path, r.value)
    {
      if fileConfiguration.None? {
        return None;
      }
      var ret := Section(map[]);
      fileConfiguration := Some(Written(fileConfiguration.value, path, ret));
      if options.GetEnableAutoSave() {
        var _ := SaveConfig();
      }
      UpdateFields(path, ret);
      r := Some(ret);
    }

    /** createSection(path, map): as createSection(path), with the section filled from `entries`. */
    method CreateSectionWith(path: string, entries: map<string, Value>) returns (r: Option<Value>)
      requires Valid()
      modifies this`fileConfiguration, disk`files, store
      ensures Valid()
      ensures old(fileConfiguration).None? ==>
                r == None && fileConfiguration == None && unchanged(disk) && unchanged(store)
      ensures old(fileConfiguration).Some? ==>
                && r == Some(Section(entries))
                && WroteThrough(old(fileConfiguration).value, old(disk.files), old(store.values), path, r.value)
    {
      if fileConfiguration.None? {
        return None;
      }
      var ret := Section(entries);
      fileConfiguration := Some(Written(fileConfiguration.value, path, ret));
      if options.GetEnableAutoSave() {
        var _ := SaveConfig();
      }
      UpdateFields(path, ret);
      r := Some(ret);
    }
  }
}
