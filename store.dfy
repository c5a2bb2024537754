/**
 * The vocabulary shared with the object store: field values, stored objects,
 * bucket schemas, records returned by a scan, and errors with their cause chains.
 * The store itself is not modelled; its answers are inputs of the operations
 * that use it.
 */
module Store {
  import opened Wrappers

  /** The JavaScript values the benchmarks store in indexed fields. */
  datatype Value = Str(s: string) | Bool(b: bool) | Num(n: int)

  /** An object value: field name to field value. */
  type Object = map<string, Value>

  /** A record as a scan returns it: its key and its stored value. */
  datatype Record = Record(key: string, value: Object)

  /** A bucket schema: indexed field name to its type name, and the schema version. */
  datatype Schema = Schema(index: map<string, string>, version: int)

  datatype Bucket = Bucket(name: string, schema: Schema)

  /** An error with a name and, as VError builds them, an optional cause. */
  datatype Error = Error(name: string, cause: Option<Error>)

  /** The type name `typeof` gives for a value. */
  function TypeOf(v: Value): string
  {
    match v
    case Str(_) => "string"
    case Bool(_) => "boolean"
    case Num(_) => "number"
  }

  /** An error followed by its causes, outermost first. */
  function CauseChain(err: Error): (chain: seq<Error>)
    ensures |chain| >= 1 && chain[0] == err
    decreases err
  {
    match err.cause
    case None => [err]
    case Some(c) => [err] + CauseChain(c)
  }

  /** VError.findCauseByName: the first error along the cause chain with the given name. */
  function FindCauseByName(err: Error, name: string): Option<Error>
    decreases err
  {
    if err.name == name then Some(err)
    else match err.cause
      case None => None
      case Some(c) => FindCauseByName(c, name)
  }

  /** The lookup finds an error exactly when one in the chain has that name. */
  lemma {:induction false} FindCauseByNameFound(err: Error, name: string)
    ensures FindCauseByName(err, name).Some? <==> exists e :: e in CauseChain(err) && e.name == name
    decreases err
  {
    if err.name != name && err.cause.Some? {
      var c := err.cause.value;
      FindCauseByNameFound(c, name);
      assert CauseChain(err) == [err] + CauseChain(c);
    }
  }

  /** What the lookup finds has that name and is the first error along the chain that has it. */
  lemma {:induction false} FindCauseByNameFirst(err: Error, name: string)
    requires FindCauseByName(err, name).Some?
    ensures FindCauseByName(err, name).value.name == name
    ensures exists i :: 0 <= i < |CauseChain(err)| && CauseChain(err)[i] == FindCauseByName(err, name).value &&
                        forall j :: 0 <= j < i ==> CauseChain(err)[j].name != name
    decreases err
  {
    var chain := CauseChain(err);
    if err.name == name {
      assert chain[0] == FindCauseByName(err, name).value;
    } else {
      var c := err.cause.value;
      FindCauseByNameFirst(c, name);
      var rest := CauseChain(c);
      assert chain == [err] + rest;
      var k :| 0 <= k < |rest| && rest[k] == FindCauseByName(c, name).value &&
        forall j :: 0 <= j < k ==> rest[j].name != name;
      assert chain[k + 1] == rest[k];
      forall j | 0 <= j < k + 1 ensures chain[j].name != name {
        if j > 0 { assert chain[j] == rest[j - 1]; }
      }
    }
  }

  /** The decimal text of a natural number, as String(n) gives it. */
  function NatText(n: nat): string
    decreases n
  {
    var digit := ["0", "1", "2", "3", "4", "5", "6", "7", "8", "9"][n % 10];
    if n < 10 then digit else NatText(n / 10) + digit
  }

  /** The text a value turns into when concatenated to a string. */
  function ValueText(v: Value): string
  {
    match v
    case Str(s) => s
    case Bool(b) => if b then "true" else "false"
    case Num(n) => if n < 0 then "-" + NatText(-n) else NatText(n)
  }
}
