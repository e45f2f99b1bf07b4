/** JSON values as the converters see them once decoded. Objects keep their
    keys in insertion order, as Python dicts (and so `json.dumps`) do. */
module Json {
  import opened Wrappers

  datatype Json =
    | JNull
    | JBool(b: bool)
    | JNumber(n: int)
    | JString(s: string)
    | JArray(items: seq<Json>)
    | JObject(fields: seq<(string, Json)>)

  /** `{}` */
  const EmptyObject: Json := JObject([])

  /** `json.dumps`: serialisation is an external collaborator, passed in. */
  type Encoder = Json -> string

  /** `json.loads`: `None` stands for a `JSONDecodeError`. */
  type Decoder = string -> Option<Json>

  /** The value of the first field named `key`, or `None` when there is none. */
  function FieldValue(fields: seq<(string, Json)>, key: string): Option<Json> {
    if |fields| == 0 then None
    else if fields[0].0 == key then Some(fields[0].1)
    else FieldValue(fields[1..], key)
  }

  /** The lookup finds the field at position `k` when it is the first one
      named `key`. */
  lemma {:induction false} FieldValueAt(fields: seq<(string, Json)>, key: string, k: nat)
    requires k < |fields| && fields[k].0 == key
    requires forall i :: 0 <= i < k ==> fields[i].0 != key
    ensures FieldValue(fields, key) == Some(fields[k].1)
  {
    if k > 0 {
      FieldValueAt(fields[1..], key, k - 1);
    }
  }

  /** The lookup finds nothing when no field is named `key`. */
  lemma {:induction false} FieldValueMissing(fields: seq<(string, Json)>, key: string)
    requires forall i :: 0 <= i < |fields| ==> fields[i].0 != key
    ensures FieldValue(fields, key) == None
  {
    if |fields| > 0 {
      FieldValueMissing(fields[1..], key);
    }
  }

  /** `obj[key]` on a decoded value: `None` when `j` is not an object or has
      no field named `key`. */
  function Get(j: Json, key: string): Option<Json> {
    if j.JObject? then FieldValue(j.fields, key) else None
  }

  /** `obj[key]` when it is a string. */
  function GetString(j: Json, key: string): (v: Option<string>)
    ensures v.Some? <==> Get(j, key).Some? && Get(j, key).value.JString?
    ensures v.Some? ==> Get(j, key) == Some(JString(v.value))
  {
    match Get(j, key)
    case Some(JString(s)) => Some(s)
    case _ => None
  }
}

