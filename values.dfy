/** Values shared by the whole model: an optional value and the decoded
    configuration the console is given. */
module Values {

  datatype Option<+T> = None | Some(value: T)

  /** A configuration value, as decoded from the console's JSON configuration. */
  datatype Json =
    | Null
    | Bool(b: bool)
    | Number(n: int)
    | Text(s: string)
    | Array(items: seq<Json>)
    | Object(fields: map<string, Json>)

  /** One section of the configuration: a string-keyed mapping. */
  type Section = map<string, Json>

  /** The configuration: sections by name. */
  type Config = map<string, Section>
}
