/** Payload values: the metadata this system stores and reads back is made of
    strings (ticker, form type, accession, section, source file, chunk id) and
    integers (filing year, chunk index, word count). */
module Values {
  import PyFormat

  datatype Value = Str(s: string) | Int(i: int)

  /** A Python dict from field names to payload values. */
  type Payload = map<string, Value>

  /** `d.get(key, default)`. */
  function Get(d: Payload, key: string, default: Value): (v: Value)
    ensures key in d ==> v == d[key]
    ensures key !in d ==> v == default
  {
    if key in d then d[key] else default
  }

  /** What an f-string placeholder `{v}` prints for a value. */
  function Render(v: Value): string {
    match v
    case Str(s) => s
    case Int(i) => PyFormat.IntToString(i)
  }
}
