/**
 * The key check that DevicesController runs before every write of a fields
 * map: each key of the supplied map must be one of the names the Type
 * declares. Fewer keys than declared is fine; the check is membership of
 * every key, not equality of the key sets.
 */
module FieldValidator {

  import opened Wrappers
  import opened Models

  /** Every key of `fields` is a name declared in `schema`. */
  predicate KeysAllowed(fields: Fields, schema: seq<string>)
  {
    forall k :: k in fields ==> k in schema
  }

  /**
   * `schema.find(element => element === key)`: the first declared name equal
   * to `key`, or None (JavaScript's undefined) when there is none.
   */
  method FindName(schema: seq<string>, key: string) returns (r: Option<string>)
    ensures r.Some? <==> key in schema
    ensures r.Some? ==> r.value == key
  {
    var i := 0;
    while i < |schema|
      invariant 0 <= i <= |schema|
      invariant key !in schema[..i]
    {
      if schema[i] == key {
        return Some(schema[i]);
      }
      i := i + 1;
    }
    assert schema[..i] == schema;
    return None;
  }

  /**
   * The `for (const key in payload.fields)` loop with its early return:
   * false as soon as one key has no declared name, true when every key has
   * one. Keys are visited in an arbitrary order; the outcome does not
   * depend on it, since the rejection does not say which key failed.
   */
  method CheckKeys(fields: Fields, schema: seq<string>) returns (ok: bool)
    ensures ok <==> KeysAllowed(fields, schema)
  {
    var pending := fields.Keys;
    while pending != {}
      invariant pending <= fields.Keys
      invariant forall k :: k in fields && k !in pending ==> k in schema
      decreases pending
    {
      var key :| key in pending;
      var checkKey := FindName(schema, key);
      if checkKey.None? {
        return false;
      }
      pending := pending - {key};
    }
    return true;
  }

  /** A map with a key the Type does not declare is rejected, however many declared keys it also has. */
  lemma UndeclaredKeyRejects(fields: Fields, schema: seq<string>, key: string, v: Json)
    requires key !in schema
    ensures !KeysAllowed(fields[key := v], schema)
  {
    assert key in fields[key := v];
  }

  /** Rejection happens exactly when some key is undeclared (both directions). */
  lemma RejectedIffUndeclaredKey(fields: Fields, schema: seq<string>)
    ensures !KeysAllowed(fields, schema) <==> exists k :: k in fields && k !in schema
  {
  }

  /**
   * The check is subset membership, not equality: any map whose keys are
   * among the declared names is accepted, including one that leaves some
   * declared names out.
   */
  lemma DeclaredSubsetAccepted(fields: Fields, schema: seq<string>)
    requires fields.Keys <= set n | n in schema
    ensures KeysAllowed(fields, schema)
  {
    forall k | k in fields
      ensures k in schema
    {
      assert k in set n | n in schema;
    }
  }

  /** Dropping keys from an accepted map keeps it accepted. */
  lemma FewerKeysStillAccepted(fields: Fields, smaller: Fields, schema: seq<string>)
    requires KeysAllowed(fields, schema)
    requires smaller.Keys <= fields.Keys
    ensures KeysAllowed(smaller, schema)
  {
  }

  /**
   * The two fields maps of the device tests: one built from the declared
   * names is accepted, one holding only the undeclared key "test1" (against
   * three declared nouns) is rejected; a map with one declared name only
   * is accepted although it is not equal to the declared set.
   */
  lemma DeviceTestMaps(a: string, b: string, c: string)
    requires "test1" !in [a, b, c]
    ensures KeysAllowed(map[a := JString("0"), b := JString("1"), c := JString("2")], [a, b, c])
    ensures !KeysAllowed(map["test1" := JString("test1")], [a, b, c])
    ensures KeysAllowed(map[a := JString("0")], [a, b, c])
  {
    assert "test1" in map["test1" := JString("test1")];
  }
}
