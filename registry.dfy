/** The two parallel copies of src/utils/platformConfig side by side. Both form
    components import `platforms` and `validatePost` from '../utils/platformConfig',
    a path that names either copy depending on how the module is resolved, so the
    components are modelled against a chosen copy. */
module Registry {
  import opened Types
  import RegistryTs
  import RegistryJs

  /** Which copy of the registry and validator a caller is wired to. */
  datatype Copy = TsCopy | JsCopy

  /** `platforms[p]` in the chosen copy. */
  function Platform(c: Copy, p: PlatformKey): PlatformConfig
  {
    match c
    case TsCopy => RegistryTs.Platform(p)
    case JsCopy => RegistryJs.Platform(p)
  }

  /** `platforms[p].fields` in the chosen copy, in declaration order. */
  function Fields(c: Copy, p: PlatformKey): seq<(string, FieldConfig)>
  {
    Platform(c, p).fields
  }

  /** `platforms[p].fields[name]` in the chosen copy. */
  function FieldConfigOf(c: Copy, p: PlatformKey, name: string): Option<FieldConfig>
  {
    FieldOf(Fields(c, p), name)
  }
}
