/**
 * A Postman environment: a name and a dictionary of variables, the strategies used to
 * resolve duplicate keys when two environments are merged, and the conversion between
 * the dictionary and the list of `{key, value}` entries that goes over the wire.
 */
module Environment {
  import opened Wrappers

  /** The environment as the library holds it: variables form a dictionary, so keys are unique. */
  datatype PostmanEnvironment = PostmanEnvironment(name: string, values: map<string, string>)

  /** How a key present in both environments is resolved. */
  datatype MergeStrategy =
    | KeepCurrentValueForDuplicateKeys
    | UseNewValueForDuplicateKeys
    | Closure(combine: (string, string) -> string)

  /** The resolver a strategy stands for, called with the current and the incoming value. */
  function Resolver(strategy: MergeStrategy): (f: (string, string) -> string)
    ensures strategy.KeepCurrentValueForDuplicateKeys? ==> forall current, incoming :: f(current, incoming) == current
    ensures strategy.UseNewValueForDuplicateKeys? ==> forall current, incoming :: f(current, incoming) == incoming
    ensures strategy.Closure? ==> forall current, incoming :: f(current, incoming) == strategy.combine(current, incoming)
  {
    match strategy
    case KeepCurrentValueForDuplicateKeys => (current, incoming) => current
    case UseNewValueForDuplicateKeys => (current, incoming) => incoming
    case Closure(combine) => combine
  }

  /**
   * What merging `other` into `self` produces: the dictionary-merge semantics, where a key
   * found on one side only keeps its value and a key found on both is resolved by the
   * strategy with the receiver's value as the current one.
   */
  function MergedEnvironment(self: PostmanEnvironment, other: PostmanEnvironment, strategy: MergeStrategy): (r: PostmanEnvironment)
    ensures r.name == self.name
    ensures r.values.Keys == self.values.Keys + other.values.Keys
    ensures forall k :: k in self.values && k !in other.values ==> r.values[k] == self.values[k]
    ensures forall k :: k !in self.values && k in other.values ==> r.values[k] == other.values[k]
    ensures forall k :: k in self.values && k in other.values ==>
              r.values[k] == Resolver(strategy)(self.values[k], other.values[k])
  {
    var current, incoming := self.values, other.values;
    self.(values := map k | k in current.Keys + incoming.Keys ::
                      if k in current && k in incoming then Resolver(strategy)(current[k], incoming[k])
                      else if k in current then current[k]
                      else incoming[k])
  }

  /**
   * Merges `other`'s variables into `self`'s, in place: each entry of `other` is inserted,
   * or resolved against the entry already there. `self` is a value, so the updated
   * environment is returned to the caller, whose variable it replaces.
   */
  method MergeValues(self: PostmanEnvironment, other: PostmanEnvironment, strategy: MergeStrategy)
    returns (merged: PostmanEnvironment)
    ensures merged == MergedEnvironment(self, other, strategy)
  {
    var combine := Resolver(strategy);
    var values := self.values;
    var pending := other.values.Keys;
    while pending != {}
      invariant pending <= other.values.Keys
      invariant values.Keys == self.values.Keys + (other.values.Keys - pending)
      invariant forall k :: k in self.values && k !in other.values ==> values[k] == self.values[k]
      invariant forall k :: k in self.values && k in pending ==> values[k] == self.values[k]
      invariant forall k :: k !in self.values && k in other.values && k !in pending ==> values[k] == other.values[k]
      invariant forall k :: k in self.values && k in other.values && k !in pending ==>
                  values[k] == combine(self.values[k], other.values[k])
      decreases pending
    {
      var k :| k in pending;
      if k in values {
        values := values[k := combine(values[k], other.values[k])];
      } else {
        values := values[k := other.values[k]];
      }
      pending := pending - {k};
    }
    merged := self.(values := values);
  }

  /** Returns a merged copy: the receiver is copied and the copy is merged in place. */
  method MergingValues(self: PostmanEnvironment, other: PostmanEnvironment, strategy: MergeStrategy)
    returns (copy: PostmanEnvironment)
    ensures copy == MergedEnvironment(self, other, strategy)
  {
    copy := self;
    copy := MergeValues(copy, other, strategy);
  }

  /** Under keep-current, the merge agrees with the receiver on all of the receiver's keys. */
  lemma KeepCurrentKeepsReceiver(self: PostmanEnvironment, other: PostmanEnvironment)
    ensures var r := MergedEnvironment(self, other, KeepCurrentValueForDuplicateKeys);
      self.values.Keys <= r.values.Keys &&
      (map k | k in self.values :: r.values[k]) == self.values
  {
  }

  /** Under use-incoming, the merge agrees with the argument on all of the argument's keys. */
  lemma UseNewTakesArgument(self: PostmanEnvironment, other: PostmanEnvironment)
    ensures var r := MergedEnvironment(self, other, UseNewValueForDuplicateKeys);
      other.values.Keys <= r.values.Keys &&
      (map k | k in other.values :: r.values[k]) == other.values
  {
  }

  /** Merging an environment without variables changes nothing, whatever the strategy. */
  lemma MergeWithEmptyIsIdentity(self: PostmanEnvironment, other: PostmanEnvironment, strategy: MergeStrategy)
    requires other.values == map[]
    ensures MergedEnvironment(self, other, strategy) == self
  {
  }

  /** Merging into an environment without variables yields the argument's variables under the receiver's name. */
  lemma MergeIntoEmptyTakesArgument(self: PostmanEnvironment, other: PostmanEnvironment, strategy: MergeStrategy)
    requires self.values == map[]
    ensures MergedEnvironment(self, other, strategy) == PostmanEnvironment(self.name, other.values)
  {
  }

  /** Keep-current is use-incoming with the two sides' values exchanged (the name stays the receiver's). */
  lemma KeepCurrentIsUseNewSwapped(self: PostmanEnvironment, other: PostmanEnvironment)
    ensures MergedEnvironment(self, other, KeepCurrentValueForDuplicateKeys).values
         == MergedEnvironment(other, self, UseNewValueForDuplicateKeys).values
  {
  }

  // ---------------------------------------------------------------------------------
  // Wire form: `values` travels as a list of `{key, value}` entries.
  // ---------------------------------------------------------------------------------

  /** One `{key, value}` entry of the wire form. */
  datatype Value = Value(key: string, value: string)

  /** The environment as encoded: its name and its variables as a list of entries. */
  datatype WireEnvironment = WireEnvironment(name: string, values: seq<Value>)

  /** Why a list of entries does not make a dictionary. */
  datatype DecodeError = DuplicateKey(key: string)

  /** No key occurs twice in the list. */
  ghost predicate DistinctKeys(entries: seq<Value>)
  {
    forall i, j :: 0 <= i < j < |entries| ==> entries[i].key != entries[j].key
  }

  /** The keys the list mentions. */
  ghost function KeysOf(entries: seq<Value>): set<string>
  {
    set e | e in entries :: e.key
  }

  /**
   * Builds a dictionary from the entries, in order; the first entry whose key was already
   * inserted stops the construction.
   */
  function UniqueKeysWithValues(entries: seq<Value>): (r: Result<map<string, string>, DecodeError>)
    ensures r.Success? <==> DistinctKeys(entries)
    ensures r.Success? ==> r.value.Keys == KeysOf(entries)
    ensures r.Success? ==> forall e :: e in entries ==> r.value[e.key] == e.value
    ensures r.Failure? ==> exists i, j :: 0 <= i < j < |entries| && entries[i].key == entries[j].key == r.error.key
    decreases |entries|
  {
    if entries == [] then Success(map[])
    else
      var front, last := entries[..|entries| - 1], entries[|entries| - 1];
      assert entries == front + [last];
      match UniqueKeysWithValues(front)
      case Failure(e) => Failure(e)
      case Success(m) =>
        if last.key in m then Failure(DuplicateKey(last.key))
        else Success(m[last.key := last.value])
  }

  /** Decodes the wire form; duplicate keys make decoding fail. */
  function Decode(wire: WireEnvironment): (r: Result<PostmanEnvironment, DecodeError>)
    ensures r.Success? <==> DistinctKeys(wire.values)
    ensures r.Success? ==> r.value.name == wire.name && IsEncodingOf(wire.values, r.value.values)
  {
    match UniqueKeysWithValues(wire.values)
    case Success(values) => Success(PostmanEnvironment(wire.name, values))
    case Failure(e) => Failure(e)
  }

  /** `entries` lists every variable of `values` exactly once, in some order. */
  ghost predicate IsEncodingOf(entries: seq<Value>, values: map<string, string>)
  {
    && DistinctKeys(entries)
    && KeysOf(entries) == values.Keys
    && forall e :: e in entries ==> e.key in values && values[e.key] == e.value
  }

  /**
   * Encodes the environment: its name, and one entry per variable. Dictionary iteration
   * order is unspecified, so the order of the entries is left open.
   */
  method Encode(env: PostmanEnvironment) returns (wire: WireEnvironment)
    ensures wire.name == env.name
    ensures IsEncodingOf(wire.values, env.values)
    ensures |wire.values| == |env.values|
  {
    var entries: seq<Value> := [];
    var pending := env.values.Keys;
    while pending != {}
      invariant pending <= env.values.Keys
      invariant DistinctKeys(entries)
      invariant KeysOf(entries) == env.values.Keys - pending
      invariant forall e :: e in entries ==> e.key in env.values && env.values[e.key] == e.value
      decreases pending
    {
      var k :| k in pending;
      assert KeysOf(entries + [Value(k, env.values[k])]) == KeysOf(entries) + {k};
      entries := entries + [Value(k, env.values[k])];
      pending := pending - {k};
    }
    EncodingLength(entries, env.values);
    wire := WireEnvironment(env.name, entries);
  }

  /** A list with distinct keys has as many entries as keys. */
  lemma {:induction false} DistinctKeysCount(entries: seq<Value>)
    requires DistinctKeys(entries)
    ensures |KeysOf(entries)| == |entries|
  {
    if entries != [] {
      var rest := entries[1..];
      assert KeysOf(entries) == {entries[0].key} + KeysOf(rest);
      assert entries[0].key !in KeysOf(rest) by {
        forall e | e in rest ensures e.key != entries[0].key {
          var j :| 0 <= j < |rest| && rest[j] == e;
          assert entries[j + 1] == e;
        }
      }
      DistinctKeysCount(rest);
    }
  }

  /** An encoding has exactly one entry per variable. */
  lemma EncodingLength(entries: seq<Value>, values: map<string, string>)
    requires IsEncodingOf(entries, values)
    ensures |entries| == |values|
  {
    DistinctKeysCount(entries);
    assert |values| == |values.Keys|;
  }

  /** Decoding an encoding gives back the environment. */
  lemma DecodeEncoded(name: string, entries: seq<Value>, values: map<string, string>)
    requires IsEncodingOf(entries, values)
    ensures Decode(WireEnvironment(name, entries)) == Success(PostmanEnvironment(name, values))
  {
    var r := UniqueKeysWithValues(entries);
    assert r.Success?;
    forall k | k in values ensures r.value[k] == values[k] {
      assert k in KeysOf(entries);
      var e :| e in entries && e.key == k;
    }
    assert r.value == values;
  }

  /** With no duplicate keys, each entry occurs at most once. */
  lemma {:induction false} DistinctKeysOccurOnce(entries: seq<Value>, x: Value)
    requires DistinctKeys(entries)
    ensures multiset(entries)[x] <= 1
  {
    if entries != [] {
      var rest := entries[1..];
      assert entries == [entries[0]] + rest;
      DistinctKeysOccurOnce(rest, x);
      if entries[0] == x {
        assert x !in rest;
      }
    }
  }

  /** Two encodings of the same variables differ only in the order of their entries. */
  lemma EncodingsArePermutations(a: seq<Value>, b: seq<Value>, values: map<string, string>)
    requires IsEncodingOf(a, values) && IsEncodingOf(b, values)
    ensures multiset(a) == multiset(b)
  {
    forall x ensures multiset(a)[x] == multiset(b)[x] {
      DistinctKeysOccurOnce(a, x);
      DistinctKeysOccurOnce(b, x);
      if x in a {
        assert x.key in KeysOf(b);
        var y :| y in b && y.key == x.key;
        assert y == x;
      }
      if x in b {
        assert x.key in KeysOf(a);
        var y :| y in a && y.key == x.key;
        assert y == x;
      }
    }
  }

  /** The only encoding of the single variable A = 1 is the one entry `{key: A, value: 1}`. */
  lemma SingleVariableEncoding(entries: seq<Value>)
    requires IsEncodingOf(entries, map["A" := "1"])
    ensures entries == [Value("A", "1")]
  {
    EncodingLength(entries, map["A" := "1"]);
    assert entries[0] in entries;
  }
}
