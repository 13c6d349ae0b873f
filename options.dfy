/**
  ConfigOptions: the mutable policy bag a Config handle consults on every
  read (auto-reload), every write (auto-save) and in initialize (the name of
  the bundled template that seeds a new file).
 */
module Options {
  import opened Values

  class ConfigOptions {
    var enableAutoReload: bool
    var enableAutoSave: bool
    /** Name of the bundled resource that seeds a newly created file. */
    var setDefaults: Option<string>
    /** Folder in which configs are created by default. */
    var defaultLocation: Option<string>

    function GetEnableAutoReload(): bool
      reads this
    {
      enableAutoReload
    }

    function GetEnableAutoSave(): bool
      reads this
    {
      enableAutoSave
    }

    function GetSetDefaults(): Option<string>
      reads this
    {
      setDefaults
    }

    function GetDefaultLocation(): Option<string>
      reads this
    {
      defaultLocation
    }

    /** Every policy off and no template or folder. */
    constructor ()
      ensures !GetEnableAutoReload() && !GetEnableAutoSave()
      ensures GetSetDefaults() == None && GetDefaultLocation() == None
    {
      enableAutoReload := false;
      enableAutoSave := false;
      setDefaults := None;
      defaultLocation := None;
    }

    /**
      The copy constructor takes the two policies and the template name from
      `other` but not its default location, which keeps its initial null.
     */
    constructor Copy(other: ConfigOptions)
      ensures CopyOf(other)
    {
      enableAutoReload := other.enableAutoReload;
      enableAutoSave := other.enableAutoSave;
      setDefaults := other.setDefaults;
      defaultLocation := None;
    }

    /** This object holds what the copy constructor makes of `source`. */
    ghost predicate CopyOf(source: ConfigOptions)
      reads this, source
    {
      && GetEnableAutoReload() == source.GetEnableAutoReload()
      && GetEnableAutoSave() == source.GetEnableAutoSave()
      && GetSetDefaults() == source.GetSetDefaults()
      && GetDefaultLocation() == None
    }

    method EnableAutoReload(enable: bool) returns (r: ConfigOptions)
      modifies this
      ensures r == this
      ensures GetEnableAutoReload() == enable
      ensures enableAutoSave == old(enableAutoSave)
      ensures setDefaults == old(setDefaults) && defaultLocation == old(defaultLocation)
    {
      enableAutoReload := enable;
      r := this;
    }

    method EnableAutoSave(enable: bool) returns (r: ConfigOptions)
      modifies this
      ensures r == this
      ensures GetEnableAutoSave() == enable
      ensures enableAutoReload == old(enableAutoReload)
      ensures setDefaults == old(setDefaults) && defaultLocation == old(defaultLocation)
    {
      enableAutoSave := enable;
      r := this;
    }

    method SetDefaults(resource: Option<string>) returns (r: ConfigOptions)
      modifies this
      ensures r == this
      ensures GetSetDefaults() == resource
      ensures enableAutoReload == old(enableAutoReload) && enableAutoSave == old(enableAutoSave)
      ensures defaultLocation == old(defaultLocation)
    {
      setDefaults := resource;
      r := this;
    }

    method SetDefaultLocation(folder: Option<string>) returns (r: ConfigOptions)
      modifies this
      ensures r == this
      ensures GetDefaultLocation() == folder
      ensures enableAutoReload == old(enableAutoReload) && enableAutoSave == old(enableAutoSave)
      ensures setDefaults == old(setDefaults)
    {
      defaultLocation := folder;
      r := this;
    }
  }

  /**
    A copy does not share state with its source: setters called on the
    source afterwards leave the copy as it was, and setters on the copy leave
    the source as it was. Two setters on the source and one on the copy are
    shown; the rest follow the same way, since every setter modifies only
    its own object and the copy is freshly allocated.
   */
  method CopyIsIndependent(source: ConfigOptions, reload: bool, save: bool, resource: Option<string>)
    returns (copy: ConfigOptions)
    modifies source
    ensures fresh(copy)
    ensures copy.GetEnableAutoReload() == old(source.enableAutoReload)
    ensures copy.GetEnableAutoSave() == old(source.enableAutoSave)
    ensures copy.GetSetDefaults() == resource && copy.GetDefaultLocation() == None
    ensures source.GetEnableAutoReload() == reload && source.GetEnableAutoSave() == save
    ensures source.GetSetDefaults() == old(source.setDefaults)
    ensures source.GetDefaultLocation() == old(source.defaultLocation)
  {
    copy := new ConfigOptions.Copy(source);
    var _ := source.EnableAutoReload(reload);
    var _ := source.EnableAutoSave(save);
    var _ := copy.SetDefaults(resource);
  }
}
