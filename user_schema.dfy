/**
 * The validation `save()` runs on a user document (models/User.js). A save validates
 * every path of the document, including the ones read from the store, so a stored value
 * outside its path's enum fails every later save of that user, whatever the save changed.
 */
module UserSchema {
  import opened Json

  /** The `role` enum: `'admin'` is not among them. */
  const Roles: set<string> := {"agent", "customer"}

  /** The enumerated paths of the schema and their values. */
  function EnumOf(path: string): set<string> {
    if path == "role" then Roles
    else if path == "gender" then {"male", "female", "other"}
    else if path == "status" then {"online", "offline"}
    else if path == "statusRealtion" then {"unmarried", "married"}
    else {}
  }

  const Enumerated: set<string> := {"role", "gender", "status", "statusRealtion"}

  /**
   * The enum validator on one value: `null` passes, a string must be listed; a number or
   * boolean casts to a string that is never listed, and an array or object does not cast.
   */
  predicate InEnum(v: Json, values: set<string>) {
    v.Null? || (v.Str? && v.s in values)
  }

  /** Every enumerated path of `fields` that is present holds a value its enum accepts. */
  predicate EnumsValid(fields: Object) {
    forall p :: p in Enumerated && p in fields ==> InEnum(fields[p], EnumOf(p))
  }

  /**
   * Validation fails exactly on a listed path that holds an unlisted value; a stored
   * `"admin"` role fails it, and changing other paths does not repair it.
   */
  lemma {:induction false} EnumsValidExactly(fields: Object, p: string, v: Json)
    ensures !EnumsValid(fields) <==> exists q :: q in Enumerated && q in fields && !InEnum(fields[q], EnumOf(q))
    ensures "role" in fields && fields["role"] == Str("admin") ==> !EnumsValid(fields)
    ensures p !in Enumerated ==> (EnumsValid(fields[p := v]) <==> EnumsValid(fields))
  {
    if "role" in fields && fields["role"] == Str("admin") {
      assert "role" in Enumerated && !InEnum(fields["role"], EnumOf("role"));
    }
    if p !in Enumerated {
      if EnumsValid(fields) {
        forall q | q in Enumerated && q in fields[p := v]
          ensures InEnum(fields[p := v][q], EnumOf(q))
        {
          assert q != p;
        }
      }
      if EnumsValid(fields[p := v]) {
        forall q | q in Enumerated && q in fields
          ensures InEnum(fields[q], EnumOf(q))
        {
          assert q != p && q in fields[p := v];
        }
      }
    }
  }
}
