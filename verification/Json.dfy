/** JSON text is an oracle: these are the laws of Go's encoder and decoder the proxy leans on. */
module Json {
  import opened Wrappers

  datatype Value = Null | Bool(b: bool) | Number(literal: string) | Str(s: string)
                 | Arr(elements: seq<Value>) | Obj(fields: map<string, Value>)

  type Object = map<string, Value>

  datatype Codec = Codec(
    decode: string -> Option<Object>,  // json.Unmarshal into a map; None on a syntax or type error
    canonical: Object -> string,       // convert.CanonicalJSONStringify
    marshal: Object -> string,         // json.Marshal
    repair: string -> string)          // repairTruncatedJson

  ghost predicate Lawful(c: Codec)
  {
    && (forall o {:trigger c.canonical(o)} :: c.decode(c.canonical(o)) == Some(o))
    && (forall o {:trigger c.marshal(o)} :: c.decode(c.marshal(o)) == Some(o))
    && c.decode("{}") == Some(map[])
    // The repair starts by returning text that is already valid JSON.
    && (forall s {:trigger c.repair(s)} :: c.decode(s).Some? ==> c.repair(s) == s)
  }
}
