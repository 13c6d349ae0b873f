# ConfigHelper field synchronisation, modelled in Dafny

ConfigHelper wraps a Bukkit YAML configuration file in a `Config` handle.
The handle can reload the file before every read and save it after every
write, and it can seed a new file from a bundled template. Owner objects
mark fields with `@ConfigSync(config, path)` and register themselves with
`Config.registerAnnotatedClass`. From then on the handle keeps those
fields equal to the values in the file:

- `initialize` loads the document and pushes every registered path's value into its fields (the bulk sync, `updateAllFields`);
- each `set` or `createSection` pushes the new value into the fields bound to that one path (`updateFields`).

This project models that subsystem and the `ConfigOptions` policy object.

- `values.dfy`: `Values` holds the document values (`Value`, with `Null` for Java's null). `Value` is a representative subset of what YAML holds: it has no doubles, longs or serialised objects, and the sync engine never looks inside a value. A document is a flat map from dotted path to value.
- `options.dfy`: `Options.ConfigOptions`, a class with four mutable fields, fluent setters, getters and the copy constructor.
- `registry.dfy`: `Registry` holds the static `updatingFields` map, config name -> path -> ordered list of `FieldEntry(instance, field)`. The pure function `Registered` is its specification. The class `FieldRegistry` has `RegisterAnnotatedClass`, the loop proved against `Registered`. A `Field` carries its own annotation, as a reflected Java field does. So every binding sits under the (config, path) its field names (`WellFormed`), and registration keeps it that way.
- `sync_engine.dfy`: `SyncEngine` models the fields of the owner objects as a store from binding to value. `Assigned` specifies the single-path sync. `Pushed` specifies the bulk sync pointwise: each field bound to a path set to a non-null value takes that value, and every other field keeps its value. Because each field follows one path, the result does not depend on the order in which the HashMap hands out the paths (`PushedStep`).
- `documents.dfy`: `Documents` holds the disk (files as documents), `loadConfiguration` (`Load`, an uncontracted loader abstraction), Bukkit's `set` on a document (`Written`), and what the null-guarded accessors answer.
- `config.dfy`: `ConfigHandle.Config` is the handle: its constructors, `setOptions`, `saveConfig`, `reloadConfig`, `updateFields`, `updateAllFields`, `initialize`, `set`, the two `createSection`s, and the accessors `get`, `get(def)`, `contains`, `getInt`, `getInt(def)`, `getString` and `getString(def)`. The statics and the outside world are objects shared between handles: the registry, the process-wide default options, the field store and the disk.
- `scenarios.dfy`: callers that rely only on the contracts:
  - a template seeds a new file;
  - two owners share the path "level";
  - a template is missing;
  - auto-save and auto-reload are on.

An exception that escapes a method (a null folder, file or document) is
the result `Outcome.NullReference`. The early return of `initialize` when
the template resource is missing is modelled as the code has it. The file
is created empty and `fullPath` is set, but no document is loaded and no
field is synced. The handle stays unusable, so `set` does nothing, until
someone calls `reloadConfig`. `saveConfig` on such a handle truncates the
file and then throws. Field assignment performs no type check, as in the
code.

## Model

| member | source | states |
|---|---|---|
| `Options.ConfigOptions.constructor` | src/com/uddernetworks/config/ConfigOptions.java:7-12 | a new options object has auto-reload and auto-save off and no template or default location |
| `Options.ConfigOptions.Copy` | src/com/uddernetworks/config/ConfigOptions.java:14-18 | the copy takes auto-reload, auto-save and the template name from its source, and its default location stays null |
| `Options.ConfigOptions.EnableAutoReload` | src/com/uddernetworks/config/ConfigOptions.java:23-35 | returns the same object; the getter then answers the given flag; the other three fields are unchanged |
| `Options.ConfigOptions.EnableAutoSave` | src/com/uddernetworks/config/ConfigOptions.java:40-52 | returns the same object; the getter then answers the given flag; the other three fields are unchanged |
| `Options.ConfigOptions.SetDefaults` | src/com/uddernetworks/config/ConfigOptions.java:58-70 | returns the same object; the getter then answers the given template name; the other three fields are unchanged |
| `Options.ConfigOptions.SetDefaultLocation` | src/com/uddernetworks/config/ConfigOptions.java:75-87 | returns the same object; the getter then answers the given folder; the other three fields are unchanged |
| `Options.CopyIsIndependent` | src/com/uddernetworks/config/ConfigOptions.java:14-18 | after copying, setters on the source do not reach the copy and setters on the copy do not reach the source |
| `Registry.RegisterField` | src/main/java/com/uddernetworks/config/Config.java:139-155 | one loop iteration appends the field's binding to the end of its (config, path) list, changes no other list, and keeps the registry well formed; an unannotated field changes nothing |
| `Registry.RegisteredBindings` | src/main/java/com/uddernetworks/config/Config.java:130-158 | after registering an instance, each (config, path) list is its old list followed by the instance's fields annotated with that pair, in the order `getDeclaredFields` returns them |
| `Registry.AnnotatedExactly` | src/main/java/com/uddernetworks/config/Config.java:133-155 | the appended bindings are exactly those of this instance's fields carrying that annotation; unannotated fields get none |
| `Registry.RegisteredLeavesOthers` | src/main/java/com/uddernetworks/config/Config.java:141-155 | a (config, path) pair that no registered field names keeps its list unchanged |
| `Registry.RegisteredWellFormed` | src/main/java/com/uddernetworks/config/Config.java:141-155 | registration keeps every binding under the pair its field is annotated with, and creates no empty map or list |
| `Registry.FieldRegistry.constructor` | src/main/java/com/uddernetworks/config/Config.java:124 | the registry starts empty and well formed |
| `Registry.FieldRegistry.RegisterAnnotatedClass` | src/main/java/com/uddernetworks/config/Config.java:130-158 | the registry after the loop is `Registered` of the old registry, and stays well formed |
| `SyncEngine.Assigned` | src/main/java/com/uddernetworks/config/Config.java:167-175 | after assigning a value into a list of bindings, each listed field holds the value and every other field holds what it held |
| `SyncEngine.Pushed` | src/main/java/com/uddernetworks/config/Config.java:183-205 | after the bulk sync of one config's bindings, each field bound to a path set to a non-null value holds that value; other fields are untouched |
| `SyncEngine.PushedAll` | src/main/java/com/uddernetworks/config/Config.java:183-205 | the same over the whole registry; with no entry for the name nothing changes |
| `SyncEngine.PushedStep` | src/main/java/com/uddernetworks/config/Config.java:187-202 | syncing one more path assigns its value to its bindings when it is set and non-null, and otherwise changes nothing, so the path order does not matter |
| `SyncEngine.WrittenFieldsMatchDocument` | src/main/java/com/uddernetworks/config/Config.java:345-351 | after a write and its single-path sync, each bound field equals what get(path) reads |
| `Documents.SaveThenLoad` | src/main/java/com/uddernetworks/config/Config.java:113-122 | saving a document and loading the file back gives the same document |
| `Documents.StringOrAsWrittenDropsDefault` | src/main/java/com/uddernetworks/config/Config.java:380-385 | getString(path, def) as written answers null, not def, on an unloaded handle |
| `Documents.DefaultsAgree` | src/main/java/com/uddernetworks/config/Config.java:336-409 | each default-taking accessor answers its default exactly when its default-free form finds nothing, and otherwise agrees with it |
| `Documents.UnloadedDefaults` | src/main/java/com/uddernetworks/config/Config.java:329-409 | an unloaded handle answers null, def, false, 0 or def, never touching a document |
| `Documents.ReadAfterWrite` | src/main/java/com/uddernetworks/config/Config.java:345-351 | after a value is written at a path, get, getInt and getString read it back, contains answers true exactly when the value is not null (a null removes the path), and no other path changes |
| `ConfigHandle.Config.Default` | src/main/java/com/uddernetworks/config/Config.java:41-45 | a new handle named "config.yml" in the default folder, unopened, with a fresh copy of the default options |
| `ConfigHandle.Config.Named` | src/main/java/com/uddernetworks/config/Config.java:51-55 | a new handle with the given name in the default folder, unopened, with a fresh copy of the default options |
| `ConfigHandle.Config.At` | src/main/java/com/uddernetworks/config/Config.java:62-66 | a new handle with the given name and folder, unopened, with a fresh copy of the default options |
| `ConfigHandle.Config.SetOptions` | src/main/java/com/uddernetworks/config/Config.java:73-76 | the handle now uses the given object itself and returns itself |
| `ConfigHandle.Config.SaveConfig` | src/main/java/com/uddernetworks/config/Config.java:113-122 | the file then holds the document; with no file nothing changes and it throws; with a file but no document the file is emptied and it throws |
| `ConfigHandle.Config.ReloadConfig` | src/main/java/com/uddernetworks/config/Config.java:252-254 | the document becomes the file's content, with no field sync; with no file it throws and changes nothing |
| `ConfigHandle.Config.PushValue` | src/main/java/com/uddernetworks/config/Config.java:167-175 | the field store after the loop is `Assigned` of the old store |
| `ConfigHandle.Config.UpdateFields` | src/main/java/com/uddernetworks/config/Config.java:160-178 | the fields bound to (name, path) hold the value and all others are unchanged; with no entry for the name or the path nothing changes |
| `ConfigHandle.Config.UpdateAllFields` | src/main/java/com/uddernetworks/config/Config.java:183-205 | the field store becomes `PushedAll` of the document; with bindings but no document it throws before any field changes |
| `ConfigHandle.Config.Initialize` | src/main/java/com/uddernetworks/config/Config.java:211-247 | creates the folder and file; when a new file's template is missing, stops with no document and no sync; otherwise loads the existing file, the template or an empty document and bulk-syncs it; a null folder throws and changes nothing |
| `ConfigHandle.Config.LoadAndSync` | src/main/java/com/uddernetworks/config/Config.java:241-243 | the document is the file's content and the fields are bulk-synced from it |
| `ConfigHandle.Config.ReloadIfEnabled` | src/main/java/com/uddernetworks/config/Config.java:330-331 | on a loaded handle with auto-reload on, the document is replaced by the disk's; otherwise nothing changes |
| `ConfigHandle.Config.Get` | src/main/java/com/uddernetworks/config/Config.java:329-334 | null when unloaded; otherwise reloads if auto-reload is on and answers the document's value |
| `ConfigHandle.Config.GetOr` | src/main/java/com/uddernetworks/config/Config.java:337-342 | def when unloaded, unset or null; otherwise the document's value, after the reload |
| `ConfigHandle.Config.Contains` | src/main/java/com/uddernetworks/config/Config.java:273-278 | false when unloaded; otherwise whether the path is set, after the reload |
| `ConfigHandle.Config.GetInt` | src/main/java/com/uddernetworks/config/Config.java:396-401 | 0 when unloaded or not an integer; otherwise the integer, after the reload |
| `ConfigHandle.Config.GetIntOr` | src/main/java/com/uddernetworks/config/Config.java:404-409 | def when unloaded or not an integer; otherwise the integer, after the reload |
| `ConfigHandle.Config.GetString` | src/main/java/com/uddernetworks/config/Config.java:372-377 | null when unloaded or not a string; otherwise the string, after the reload |
| `ConfigHandle.Config.GetStringOr` | src/main/java/com/uddernetworks/config/Config.java:380-385 | def when unloaded or not a string (corrected, see Findings); otherwise the string, after the reload |
| `ConfigHandle.Config.Set` | src/main/java/com/uddernetworks/config/Config.java:345-351 | unloaded: nothing changes. Loaded: the document holds the value at the path, or loses the path when the value is null; with auto-save on the file equals the document, with it off the file is unchanged; the bound fields hold the value either way |
| `ConfigHandle.Config.CreateSection` | src/main/java/com/uddernetworks/config/Config.java:354-360 | null and no change when unloaded; otherwise as set with a new empty section, which is returned |
| `ConfigHandle.Config.CreateSectionWith` | src/main/java/com/uddernetworks/config/Config.java:363-369 | null and no change when unloaded; otherwise as set with a section filled from the map, which is returned |
| `Scenarios.TwoOwnersBound` | src/main/java/com/uddernetworks/config/Config.java:130-158 | two owners registered with a field following "level" are both bound to it, in registration order |

## Findings

| source | as written | input that shows it | evidently intended | confidence | as-written member | corrected member |
|---|---|---|---|---|---|---|
| src/main/java/com/uddernetworks/config/Config.java:380-381 | `getString(path, def)` returns null when no document is loaded | a handle before `initialize`: `getString("a", "x")` answers null | answer `def`, as `get(path, def)`, `getInt(path, def)` and every other default-taking accessor do (lines 338, 405, 429, ...) | high; not executed | `Documents.StringOrAsWritten` with `Documents.StringOrAsWrittenDropsDefault` | `Documents.StringOr` with `Documents.DefaultsAgree` (used by `ConfigHandle.Config.GetStringOr`) |

## Left out

- YAML parsing and serialisation: a file's content is modelled as the document it parses to. Saving and loading are exact inverses (`Documents.SaveThenLoad`), and a missing file loads as an empty document.
- The hierarchy of dotted paths: the document is a flat map. Setting "a" does not replace "a.b", and a section's entries are not visible under dotted paths. Setting a path to null removes it, as Bukkit does (`Documents.Written`).
- `fileConfiguration.setDefaults(...)` on the template path (line 234) is not modelled. The defaults document is loaded from the same file at the same moment, so it only differs from the document once `set(path, null)` removes a path. On a handle seeded from a template, and until its next `reloadConfig`, Bukkit's `get`, `contains`, `getInt` and `getString` would then answer from the defaults, where the model answers null, false, 0 or null.
- `ConfigHandle.Config.GetInt`, `ConfigHandle.Config.GetIntOr`, `ConfigHandle.Config.GetString`, `ConfigHandle.Config.GetStringOr`: Bukkit's conversions are not modelled. Those are narrowing any `Number` to `int` and `toString` of a non-string value; a value of another kind gives the default.
- File-system failures (`mkdirs`, `createNewFile`, `PrintWriter`, the copy of the template) are assumed not to happen. Their `IOException`s are printed and swallowed in the code. Only the escaping null-reference exceptions are modelled. A null `options` object is not modelled.
- Class-loader resource lookup is a parameter of `Initialize`: a map from resource name to the template's document.
- Reflection: `Field.set` is an update of the field store. A value the field's type cannot hold would make `Field.set` throw `IllegalArgumentException` and stop the loop. Field types are not modelled, so every assignment succeeds. A static field is treated as belonging to its instance.
- The other typed forwarding accessors (lines 256-326 and 388-736, apart from `contains(path)` at 273-278 and `getInt` at 396-409: lists, doubles, longs, booleans, vectors, item stacks, colours, players, keys, values, `addDefault`, `saveToString`, `loadFromString`) and the reflective `buildHeader` (lines 738-751) only delegate to Bukkit behind the same null guard and reload. Trivial getters (`getDefaultOptions`, `getOptions`, `getConfigFile`, `getDefaultDataFolder`) are not separate members; the constructors read the default folder directly.
- Concurrency: the code has none and the model adds none.
