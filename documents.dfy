/**
  The document side of a Config handle: the disk holding YAML files, loading
  a file into a document, and what the null-guarded accessors of Config.java
  return for a handle whose document may not be loaded.
 */
module Documents {
  import opened Values

  /** The file system: existing folders, and each existing file's content as a document. */
  class Disk {
    var dirs: set<string>
    var files: map<string, Document>

    constructor (dirs: set<string>, files: map<string, Document>)
      ensures this.dirs == dirs && this.files == files
    {
      this.dirs := dirs;
      this.files := files;
    }
  }

  /** `new File(folder, name)`. */
  function Child(folder: string, name: string): string {
    folder + "/" + name
  }

  /**
    YamlConfiguration.loadConfiguration: the file's document, or an empty
    document when the file does not exist.
   */
  function Load(files: map<string, Document>, file: string): Document {
    if file in files then files[file] else map[]
  }

  /**
    MemorySection.set: a non-null value is stored at `path`; null removes
    the path.
   */
  function Written(doc: Document, path: string, v: Value): Document {
    if v == Null then doc - {path} else doc[path := v]
  }

  /** Saving a document and loading the file again gives the same document. */
  lemma SaveThenLoad(files: map<string, Document>, file: string, doc: Document)
    ensures Load(files[file := doc], file) == doc
  {
  }

  /** get(path): null when unloaded or unset. */
  function Read(loaded: Option<Document>, path: string): Value {
    if loaded.Some? && path in loaded.value then loaded.value[path] else Null
  }

  /** get(path, def): `def` when unloaded, unset or null. */
  function ReadOr(loaded: Option<Document>, path: string, def: Value): Value {
    if loaded.Some? && path in loaded.value && loaded.value[path] != Null then loaded.value[path] else def
  }

  /** contains(path): false when unloaded. */
  function Has(loaded: Option<Document>, path: string): bool {
    loaded.Some? && path in loaded.value
  }

  /** getInt(path): 0 when unloaded or when the value is not an integer. */
  function IntAt(loaded: Option<Document>, path: string): int {
    IntOr(loaded, path, 0)
  }

  /** getInt(path, def): `def` when unloaded or when the value is not an integer. */
  function IntOr(loaded: Option<Document>, path: string, def: int): int {
    if loaded.Some? && path in loaded.value && loaded.value[path].Int? then loaded.value[path].i else def
  }

  /** getString(path): null when unloaded or when the value is not a string. */
  function StringAt(loaded: Option<Document>, path: string): Option<string> {
    if loaded.Some? && path in loaded.value && loaded.value[path].Str? then Some(loaded.value[path].s) else None
  }

  /**
    getString(path, def) as Config.java writes it: an unloaded handle
    answers null instead of `def`.
   */
  function StringOrAsWritten(loaded: Option<Document>, path: string, def: string): Option<string> {
    if loaded.None? then None
    else if StringAt(loaded, path).Some? then StringAt(loaded, path) else Some(def)
  }

  /** getString(path, def) as the other default-taking accessors behave: `def` when no string is found. */
  function StringOr(loaded: Option<Document>, path: string, def: string): Option<string> {
    if StringAt(loaded, path).Some? then StringAt(loaded, path) else Some(def)
  }

  /** An unloaded handle ignores the default it is given by getString(path, def). */
  lemma StringOrAsWrittenDropsDefault(path: string, def: string)
    ensures StringOrAsWritten(None, path, def) == None
    ensures StringOrAsWritten(None, path, def) != Some(def)
  {
  }

  /**
    Every default-taking accessor answers its default exactly when the
    default-free accessor finds nothing, and otherwise agrees with it; this
    holds of getString(path, def) only once corrected.
   */
  lemma DefaultsAgree(loaded: Option<Document>, path: string, v: Value, i: int, s: string)
    ensures ReadOr(loaded, path, v) == if Read(loaded, path) == Null then v else Read(loaded, path)
    ensures IntOr(loaded, path, i) == if Has(loaded, path) && Read(loaded, path).Int? then IntAt(loaded, path) else i
    ensures StringOr(loaded, path, s) == Some(if StringAt(loaded, path).Some? then StringAt(loaded, path).value else s)
    ensures StringOrAsWritten(loaded, path, s) == StringOr(loaded, path, s) <==> loaded.Some?
  {
  }

  /** Every accessor on an unloaded handle answers its documented default. */
  lemma UnloadedDefaults(path: string, v: Value, i: int, s: string)
    ensures Read(None, path) == Null && ReadOr(None, path, v) == v && !Has(None, path)
    ensures IntAt(None, path) == 0 && IntOr(None, path, i) == i
    ensures StringAt(None, path) == None && StringOr(None, path, s) == Some(s)
  {
  }

  /**
    A value written at a path is what every accessor then reads there; the
    path is contained exactly when the value is not null; no other path
    changes.
   */
  lemma ReadAfterWrite(doc: Document, path: string, v: Value)
    ensures Read(Some(Written(doc, path, v)), path) == v
    ensures Has(Some(Written(doc, path, v)), path) <==> v != Null
    ensures v.Int? ==> IntAt(Some(Written(doc, path, v)), path) == v.i
    ensures v.Str? ==> StringAt(Some(Written(doc, path, v)), path) == Some(v.s)
    ensures forall q :: q != path ==> Read(Some(Written(doc, path, v)), q) == Read(Some(doc), q)
  {
  }
}
