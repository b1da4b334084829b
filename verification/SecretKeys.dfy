/** Where the second validator looks for secret-like keys: everywhere below the settings of a block. */
module SecretKeys {
  import opened Wrappers
  import opened Json
  import opened AutomationValidator

  /** A step into a value: to an item of a list, or to a field. */
  datatype Hop = Item(i: nat) | Key(key: string)

  /** What lies at the end of a path. */
  function Below(value: Json, path: seq<Hop>): Option<Json> {
    if path == [] then Some(value)
    else
      match (value, path[0])
      case (Arr(items), Item(i)) => if i < |items| then Below(items[i], path[1..]) else None
      case (Obj(fields), Key(key)) => if key in fields then Below(fields[key], path[1..]) else None
      case _ => None
  }

  /** An object at the end of the path has a secret-like key. */
  ghost predicate SecretAt(c: Catalog, value: Json, path: seq<Hop>) {
    match Below(value, path)
    case Some(Obj(fields)) => exists key <- fields :: c.secretKey(key)
    case _ => false
  }

  /** However deep it lies, a secret-like key is found. */
  lemma {:induction false} SecretIff(c: Catalog, value: Json)
    ensures HasSecret(c, value) <==> exists path :: SecretAt(c, value, path)
    decreases value
  {
    match value
    case Arr(items) =>
      forall i | 0 <= i < |items| ensures HasSecret(c, items[i]) <==> exists path :: SecretAt(c, items[i], path) {
        SecretIff(c, items[i]);
      }
      ListSecretIff(c, items);
    case Obj(fields) =>
      forall key <- fields ensures HasSecret(c, fields[key]) <==> exists path :: SecretAt(c, fields[key], path) {
        SecretIff(c, fields[key]);
      }
      ObjectSecretIff(c, fields);
    case _ =>
      forall path: seq<Hop> ensures !SecretAt(c, value, path) {}
  }

  lemma ListSecretIff(c: Catalog, items: seq<Json>)
    ensures (exists path :: SecretAt(c, Arr(items), path)) <==> exists item <- items, path :: SecretAt(c, item, path)
  {
    forall path: seq<Hop> | SecretAt(c, Arr(items), path)
      ensures exists item <- items, path :: SecretAt(c, item, path)
    {
      assert SecretAt(c, items[path[0].i], path[1..]);
    }
    forall item, path: seq<Hop> | item in items && SecretAt(c, item, path)
      ensures exists path :: SecretAt(c, Arr(items), path)
    {
      var i :| 0 <= i < |items| && items[i] == item;
      assert ([Item(i)] + path)[1..] == path;
      assert SecretAt(c, Arr(items), [Item(i)] + path);
    }
  }

  lemma ObjectSecretIff(c: Catalog, fields: Fields)
    ensures (exists path :: SecretAt(c, Obj(fields), path)) <==>
      exists key <- fields :: c.secretKey(key) || exists path :: SecretAt(c, fields[key], path)
  {
    forall path: seq<Hop> | SecretAt(c, Obj(fields), path)
      ensures exists key <- fields :: c.secretKey(key) || exists path :: SecretAt(c, fields[key], path)
    {
      if path != [] { assert SecretAt(c, fields[path[0].key], path[1..]); }
    }
    forall key | key in fields && c.secretKey(key) ensures exists path :: SecretAt(c, Obj(fields), path) {
      assert SecretAt(c, Obj(fields), []);
    }
    forall key, path: seq<Hop> | key in fields && SecretAt(c, fields[key], path)
      ensures exists path :: SecretAt(c, Obj(fields), path)
    {
      assert ([Key(key)] + path)[1..] == path;
      assert SecretAt(c, Obj(fields), [Key(key)] + path);
    }
  }
}
