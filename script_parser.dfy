/** `parse_script`: the shape check on a loaded script document. */
module ScriptParser {
  import opened PyValues

  /** What opening the file and `yaml.safe_load` produced. Reading and YAML
      parsing themselves are outside the model. */
  datatype Load =
    | FileNotFound
    | YamlError
    | OtherError   // any other exception while opening or reading
    | Loaded(doc: Value)

  /** A document the tool accepts: a mapping whose `scenes` value is a list. */
  predicate HasSceneList(doc: Value)
  {
    doc.Mapping? && "scenes" in doc.entries && doc.entries["scenes"].List?
  }

  /** The scene list of an accepted document. */
  function ScenesOf(doc: Value): seq<Value>
    requires HasSceneList(doc)
  {
    doc.entries["scenes"].items
  }

  /** `parse_script(file_path)`: the loaded document when it is a mapping with a
      `scenes` list (an empty list included), `None` for every load failure and
      every other shape. It never raises: a non-mapping document makes the `in`
      test or the subscript raise, and the generic handler turns that into `None`. */
  function ParseScript(load: Load): (r: Option<Value>)
    ensures r.Some? <==> load.Loaded? && HasSceneList(load.doc)
    ensures r.Some? ==> r.value == load.doc
  {
    match load
    case FileNotFound => None
    case YamlError => None
    case OtherError => None
    case Loaded(doc) =>
      match doc
      case Mapping(m) => if "scenes" !in m || !m["scenes"].List? then None else Some(doc)
      case _ => None
  }
}
