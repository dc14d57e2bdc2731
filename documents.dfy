/**
 * The two ways an application's `documents` object is merged with the `documents` of a
 * request body, key by key over the body's own properties (`for…in` + `hasOwnProperty`):
 * the customer hook merges object values one level deep and replaces anything else
 * (controller/loan.js, controller/credit.js); the agent handlers spread every value as an
 * object.
 */
module DocumentMerge {
  import opened Json
  import opened Store

  /** `doc.documents`: a nested path, so an absent one reads as `{}`. */
  function DocumentsOf(doc: Doc): Object {
    if "documents" in doc && doc["documents"].Obj? then doc["documents"].fields else map[]
  }

  /** The customer hook's new value for `documents[k]`. */
  function CustomerValue(current: Object, k: string, v: Json): Json {
    if v.Obj? then Obj(SpreadAt(current, k) + v.fields) else v
  }

  /** `documents` after the customer hook's loop over `incoming`. */
  function CustomerMerged(current: Object, incoming: Object): (r: Object)
    ensures r.Keys == current.Keys + incoming.Keys
    ensures forall k :: k in current && k !in incoming ==> r[k] == current[k]
  {
    current + map k | k in incoming :: CustomerValue(current, k, incoming[k])
  }

  /**
   * The own properties of each value of the body's `documents`: what `{ ...value }`
   * copies for each key.
   */
  function SpreadEach(incoming: Json): (spreads: map<string, Object>)
    ensures spreads.Keys == OwnProps(incoming).Keys
  {
    var props := OwnProps(incoming);
    map k | k in props :: OwnProps(props[k])
  }

  /**
   * `documents` after an agent handler's loop: every visited key becomes
   * `{ ...documents[key], ...value }`, given the spread of each value.
   */
  function AgentMerged(current: Object, spreads: map<string, Object>): (r: Object)
    ensures r.Keys == current.Keys + spreads.Keys
    ensures forall k :: k in current && k !in spreads ==> r[k] == current[k]
  {
    current + map k | k in spreads :: Obj(SpreadAt(current, k) + spreads[k])
  }

  /** The customer hook's `for…in` loop, one key at a time. */
  method MergeAsCustomer(current: Object, incoming: Object) returns (merged: Object)
    ensures merged == CustomerMerged(current, incoming)
  {
    merged := current;
    var done: set<string> := {};
    while done != incoming.Keys
      invariant done <= incoming.Keys
      invariant merged == CustomerPartial(current, incoming, done)
      decreases incoming.Keys - done
    {
      assert !(incoming.Keys <= done);
      assert exists k :: k in incoming.Keys && k !in done;
      var k :| k in incoming.Keys && k !in done;
      var v := incoming[k];
      assert SpreadAt(merged, k) == SpreadAt(current, k);
      CustomerStep(current, incoming, done, k);
      if v.Obj? {
        merged := merged[k := Obj(SpreadAt(merged, k) + v.fields)];
      } else {
        merged := merged[k := v];
      }
      done := done + {k};
    }
  }

  /** `documents` once the customer loop has visited the keys in `done`. */
  function CustomerPartial(current: Object, incoming: Object, done: set<string>): Object
    requires done <= incoming.Keys
  {
    current + map k | k in done :: CustomerValue(current, k, incoming[k])
  }

  lemma CustomerStep(current: Object, incoming: Object, done: set<string>, k: string)
    requires done <= incoming.Keys && k in incoming && k !in done
    ensures CustomerPartial(current, incoming, done)[k := CustomerValue(current, k, incoming[k])]
      == CustomerPartial(current, incoming, done + {k})
  {
  }

  /** An agent handler's `for…in` loop, one key at a time. */
  method MergeAsAgent(current: Object, spreads: map<string, Object>) returns (merged: Object)
    ensures merged == AgentMerged(current, spreads)
  {
    merged := current;
    var done: set<string> := {};
    while done != spreads.Keys
      invariant done <= spreads.Keys
      invariant merged == AgentPartial(current, spreads, done)
      decreases spreads.Keys - done
    {
      assert !(spreads.Keys <= done);
      assert exists k :: k in spreads.Keys && k !in done;
      var k :| k in spreads.Keys && k !in done;
      assert SpreadAt(merged, k) == SpreadAt(current, k);
      AgentStep(current, spreads, done, k);
      merged := merged[k := Obj(SpreadAt(merged, k) + spreads[k])];
      done := done + {k};
    }
  }

  /** `documents` once the agent loop has visited the keys in `done`. */
  function AgentPartial(current: Object, spreads: map<string, Object>, done: set<string>): Object
    requires done <= spreads.Keys
  {
    current + map k | k in done :: Obj(SpreadAt(current, k) + spreads[k])
  }

  lemma AgentStep(current: Object, spreads: map<string, Object>, done: set<string>, k: string)
    requires done <= spreads.Keys && k in spreads && k !in done
    ensures AgentPartial(current, spreads, done)[k := Obj(SpreadAt(current, k) + spreads[k])]
      == AgentPartial(current, spreads, done + {k})
  {
  }

  /**
   * The customer merge of an object value keeps the old sub-fields the value does not
   * mention and takes the value's sub-fields; any other value replaces the entry outright.
   */
  lemma CustomerValueShape(current: Object, incoming: Object, k: string)
    requires k in incoming
    ensures var r := CustomerMerged(current, incoming);
      k in r &&
      (incoming[k].Obj? ==>
        r[k].Obj? &&
        (forall f :: f in incoming[k].fields ==> f in r[k].fields && r[k].fields[f] == incoming[k].fields[f]) &&
        (forall f :: f in SpreadAt(current, k) && f !in incoming[k].fields ==> f in r[k].fields && r[k].fields[f] == SpreadAt(current, k)[f])) &&
      (!incoming[k].Obj? ==> r[k] == incoming[k])
  {
  }

  /** Applying the customer merge twice equals applying it once. */
  lemma {:induction false} CustomerMergeIdempotent(current: Object, incoming: Object)
    ensures CustomerMerged(CustomerMerged(current, incoming), incoming) == CustomerMerged(current, incoming)
  {
    var once := CustomerMerged(current, incoming);
    var twice := CustomerMerged(once, incoming);
    forall k | k in incoming
      ensures twice[k] == once[k]
    {
      if incoming[k].Obj? {
        assert SpreadAt(once, k) == SpreadAt(current, k) + incoming[k].fields;
        assert SpreadAt(once, k) + incoming[k].fields == SpreadAt(current, k) + incoming[k].fields;
      }
    }
    assert twice.Keys == once.Keys;
  }

  /** Applying the agent merge twice equals applying it once. */
  lemma {:induction false} AgentMergeIdempotent(current: Object, spreads: map<string, Object>)
    ensures AgentMerged(AgentMerged(current, spreads), spreads) == AgentMerged(current, spreads)
  {
    var once := AgentMerged(current, spreads);
    var twice := AgentMerged(once, spreads);
    forall k | k in spreads
      ensures twice[k] == once[k]
    {
      AgentMergeAt(current, spreads, k);
    }
    assert twice.Keys == once.Keys;
  }

  /** One key of the agent merge applied twice. */
  lemma AgentMergeAt(current: Object, spreads: map<string, Object>, k: string)
    requires k in spreads
    ensures AgentMerged(AgentMerged(current, spreads), spreads)[k] == AgentMerged(current, spreads)[k]
  {
    var spread := SpreadAt(current, k);
    var added := spreads[k];
    var once := AgentMerged(current, spreads);
    assert once[k] == Obj(spread + added);
    assert SpreadAt(once, k) == spread + added;
    UnionAbsorbs(spread, added);
  }

  /** Adding the same map a second time changes nothing. */
  lemma UnionAbsorbs(a: Object, b: Object)
    ensures (a + b) + b == a + b
  {
  }

  /**
   * Where the two merges differ: a string value replaces the entry in the customer merge,
   * while the agent merge spreads it into an object of its characters.
   */
  lemma MergesDifferOnStrings()
    ensures CustomerMerged(map[], map["pan" := Str("x")]) == map["pan" := Str("x")]
    ensures AgentMerged(map[], SpreadEach(Obj(map["pan" := Str("x")]))) == map["pan" := Obj(map["0" := Str("x")])]
  {
    var spreads := SpreadEach(Obj(map["pan" := Str("x")]));
    assert spreads == map["pan" := OwnProps(Str("x"))];
    var r := AgentMerged(map[], spreads);
    assert r.Keys == {"pan"};
    assert r["pan"] == Obj(OwnProps(Str("x")));
    assert OwnProps(Str("x")) == Indexed(Chars("x"));
    assert Chars("x") == [Str("x")];
    assert Indexed([Str("x")]) == Indexed([])[DecimalString(0) := Str("x")];
    assert DecimalString(0) == "0";
  }
}
