/**
 * Python values as they appear in a stored team configuration (a JSON
 * document) and in the per-event Bolt context.
 */
module PyValues {
  import opened Wrappers

  /** A Python float, carried by its literal text; nothing computes with it. */
  datatype Float = Float(literal: string)

  datatype Py =
    | PyNone
    | PyBool(b: bool)
    | PyInt(i: int)
    | PyFloat(f: Float)
    | PyStr(s: string)
    | PyList(items: seq<Py>)
    | PyDict(entries: map<string, Py>)

  /** A team's configuration: the JSON object stored in the `config` column. */
  type Config = map<string, Py>

  /** `d.get(key, default)`: the stored value (even a stored `None`) or the default. */
  function DictGet(d: map<string, Py>, key: string, default: Py): Py {
    if key in d then d[key] else default
  }

  /** Python truthiness of an optional dictionary: `None` and `{}` are false. */
  predicate Truthy(config: Option<Config>) {
    config.Some? && config.value != map[]
  }
}
