/**
  Callers of the Config handle that use nothing but the contracts: a new
  file seeded from a template, two owners bound to one path, a missing
  template, and the auto-save and auto-reload policies.
 */
module Scenarios {
  import opened Values
  import opened Registry
  import opened SyncEngine
  import opened Documents
  import opened Options
  import opened ConfigHandle

  /**
    A handle "x.yml" seeded from template "defaults.yml" on its first
    initialize reads the template's values.
   */
  method TemplateSeedsNewFile() {
    var defaults := new ConfigOptions();
    var _ := defaults.SetDefaultLocation(Some("plugins/demo"));
    var registry := new FieldRegistry();
    var store := new FieldStore(map[]);
    var disk := new Disk({}, map[]);

    var config := new Config.Named("x.yml", defaults, registry, store, disk);
    var options := new ConfigOptions.Copy(defaults);
    var _ := options.SetDefaults(Some("defaults.yml"));
    var _ := config.SetOptions(options);

    var template := map["greeting" := Str("hello")];
    var outcome := config.Initialize(map["defaults.yml" := template]);
    assert outcome == Completed;
    assert disk.files == map[Child("plugins/demo", "x.yml") := template];

    var greeting := config.Get("greeting");
    assert greeting == Str("hello");
  }

  /** Registering owner 1 (fields `level` and `plain`) and then owner 2 (field `level`) binds both owners to "level". */
  lemma TwoOwnersBound(level: Field, plain: Field)
    requires level.sync == Some(Sync("x.yml", "level")) && plain.sync == None
    ensures Bindings(Registered(Registered(map[], 1, [level, plain]), 2, [level]), "x.yml", "level")
              == [FieldEntry(1, level), FieldEntry(2, level)]
  {
    RegisteredBindings(map[], 1, [level, plain], "x.yml", "level");
    RegisteredBindings(Registered(map[], 1, [level, plain]), 2, [level], "x.yml", "level");
    assert [level, plain][..1] == [level] && [level][..0] == [];
    assert Annotated(1, [level], Sync("x.yml", "level")) == [FieldEntry(1, level)];
  }

  /** Two owners whose field follows "level" of "x.yml" both receive 5 when "level" is set to 5. */
  method SharedPath() {
    var defaults := new ConfigOptions();
    var registry := new FieldRegistry();
    var store := new FieldStore(map[]);
    var disk := new Disk({}, map[]);
    var config := new Config.At("x.yml", Some("plugins/demo"), defaults, registry, store, disk);
    var _ := config.Initialize(map[]);

    var level := Field("level", Some(Sync("x.yml", "level")));
    var plain := Field("cache", None);
    registry.RegisterAnnotatedClass(1, [level, plain]);
    registry.RegisterAnnotatedClass(2, [level]);
    TwoOwnersBound(level, plain);

    config.Set("level", Int(5));
    assert store.values[FieldEntry(1, level)] == Int(5);
    assert store.values[FieldEntry(2, level)] == Int(5);
  }

  /**
    With the template missing, a new handle stays unloaded: set changes
    nothing, saving empties the file and throws, and only an explicit reload
    makes the handle usable, with an empty document.
   */
  method MissingTemplate(resources: map<string, Document>, value: Value) {
    var defaults := new ConfigOptions();
    var registry := new FieldRegistry();
    var store := new FieldStore(map[]);
    var disk := new Disk({}, map[]);

    var config := new Config.At("x.yml", Some("plugins/demo"), defaults, registry, store, disk);
    var options := new ConfigOptions();
    var _ := options.SetDefaults(Some("absent.yml"));
    var _ := config.SetOptions(options);
    var outcome := config.Initialize(resources - {"absent.yml"});
    assert outcome == Completed && config.fileConfiguration == None;

    config.Set("level", value);
    assert config.fileConfiguration == None && store.values == map[];

    var saved := config.SaveConfig();
    assert saved == NullReference && disk.files[Child("plugins/demo", "x.yml")] == map[];

    var reloaded := config.ReloadConfig();
    assert reloaded == Completed && config.fileConfiguration == Some(map[]);
  }

  /**
    With auto-save on, a set reaches the disk at once; with auto-reload on,
    a change made to the file behind the handle's back is what the next read
    sees.
   */
  method AutoSaveAndReload(value: Value, external: Value) {
    var defaults := new ConfigOptions();
    var registry := new FieldRegistry();
    var store := new FieldStore(map[]);
    var file := Child("plugins/demo", "x.yml");
    var disk := new Disk({}, map[file := map[]]);

    var config := new Config.At("x.yml", Some("plugins/demo"), defaults, registry, store, disk);
    var _ := config.options.EnableAutoSave(true);
    var _ := config.options.EnableAutoReload(true);
    var _ := config.Initialize(map[]);
    assert config.fileConfiguration == Some(map[]);

    config.Set("level", value);
    assert disk.files[file] == Written(map[], "level", value);

    disk.files := disk.files[file := map["level" := external]];
    var seen := config.Get("level");
    assert seen == external;
  }
}
