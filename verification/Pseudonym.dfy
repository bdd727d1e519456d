/** Public player tokens: minted per (scope, id), written over every player id of a payload, and resolved
    back inside the process only. The keyed hash is a parameter; nothing is assumed of it here but that
    it is a function. */
module Pseudonym {
  import opened Wrappers

  datatype Json =
    | JNull
    | JBool(b: bool)
    | JNumber(n: real)
    | JString(s: string)
    | JArray(items: seq<Json>)
    | JObject(fields: seq<Field>)

  datatype Field = Field(key: string, value: Json)

  // Derivation keys

  function Digit(d: nat): char
    requires d < 10
  {
    "0123456789"[d]
  }

  function Decimal(n: nat): string { if n < 10 then [Digit(n)] else Decimal(n / 10) + [Digit(n % 10)] }

  /** The scope length-prefixed, then the id. */
  function DerivationKey(scope: string, id: string): string { Decimal(|scope|) + ":" + scope + id }

  lemma {:induction false} DecimalHasNoColon(n: nat)
    ensures |Decimal(n)| > 0 && forall i :: 0 <= i < |Decimal(n)| ==> Decimal(n)[i] != ':'
  {
    if n >= 10 { DecimalHasNoColon(n / 10); }
  }

  lemma DigitInjective(a: nat, b: nat)
    requires a < 10 && b < 10 && Digit(a) == Digit(b)
    ensures a == b
  {
  }

  lemma {:induction false} DecimalInjective(a: nat, b: nat)
    requires Decimal(a) == Decimal(b)
    ensures a == b
  {
    DecimalHasNoColon(a / 10);
    DecimalHasNoColon(b / 10);
    if a >= 10 && b >= 10 {
      var x, y := Decimal(a / 10), Decimal(b / 10);
      assert Decimal(a)[..|x|] == x && Decimal(b)[..|y|] == y;
      assert Decimal(a)[|x|] == Digit(a % 10) && Decimal(b)[|y|] == Digit(b % 10);
      DecimalInjective(a / 10, b / 10);
      DigitInjective(a % 10, b % 10);
    } else if a < 10 && b < 10 {
      assert Decimal(a)[0] == Decimal(b)[0];
      DigitInjective(a, b);
    }
  }

  /** No (scope, id) pair reaches another's key by moving the boundary, whatever characters they hold. */
  lemma KeyInjective(scope1: string, id1: string, scope2: string, id2: string)
    requires DerivationKey(scope1, id1) == DerivationKey(scope2, id2)
    ensures scope1 == scope2 && id1 == id2
  {
    var k1, k2 := DerivationKey(scope1, id1), DerivationKey(scope2, id2);
    var d1, d2 := Decimal(|scope1|), Decimal(|scope2|);
    DecimalHasNoColon(|scope1|);
    DecimalHasNoColon(|scope2|);
    assert k1[|d1|] == ':' && k2[|d2|] == ':';
    assert forall i :: 0 <= i < |d1| ==> k1[i] == d1[i];
    assert forall i :: 0 <= i < |d2| ==> k2[i] == d2[i];
    assert |d1| == |d2|;
    assert k1[..|d1|] == d1 && k2[..|d2|] == d2;
    DecimalInjective(|scope1|, |scope2|);
    var rest := |d1| + 1;
    assert k1[rest..rest + |scope1|] == scope1 && k2[rest..rest + |scope2|] == scope2;
    assert k1[rest + |scope1|..] == id1 && k2[rest + |scope2|..] == id2;
  }

  // The rewriting of a payload

  const SCALAR_ID_FIELDS := {"user_id", "killer_id", "victim_id", "attacker_id", "breaker_id", "steam_id"}
  const ARRAY_ID_FIELDS := {"assist_ids", "captor_ids", "contester_ids"}

  /** The token of an id in a scope; the empty id stands for itself. */
  function Token(hash: string -> string, scope: string, id: string): string {
    if id == "" then "" else "p_" + hash(DerivationKey(scope, id))
  }

  /** Apply `f` to the string at an id position, and leave anything else there alone. */
  function AtId(f: string -> string, v: Json): Json { if v.JString? then JString(f(v.s)) else v }

  /** `v` with `f` applied at every id position. */
  function MapIds(f: string -> string, v: Json): Json
    decreases v, 0
  {
    match v
    case JArray(items) => JArray(seq(|items|, i requires 0 <= i < |items| => MapIds(f, items[i])))
    case JObject(fields) =>
      JObject(seq(|fields|, i requires 0 <= i < |fields| =>
        Field(fields[i].key, MapField(f, fields[i].key, fields[i].value))))
    case _ => v
  }

  function MapField(f: string -> string, key: string, v: Json): Json
    decreases v, 1
  {
    if key in SCALAR_ID_FIELDS && v.JString? then AtId(f, v)
    else if key in ARRAY_ID_FIELDS && v.JArray? then
      JArray(seq(|v.items|, i requires 0 <= i < |v.items| => AtId(f, v.items[i])))
    else MapIds(f, v)
  }

  /** The strings found at id positions. */
  function IdsOf(v: Json): set<string>
    decreases v, 0
  {
    match v
    case JArray(items) => set i, id | 0 <= i < |items| && id in IdsOf(items[i]) :: id
    case JObject(fields) => set i, id | 0 <= i < |fields| && id in IdsOfField(fields[i].key, fields[i].value) :: id
    case _ => {}
  }

  function IdAt(v: Json): set<string> { if v.JString? then {v.s} else {} }

  function IdsOfField(key: string, v: Json): set<string>
    decreases v, 1
  {
    if key in SCALAR_ID_FIELDS && v.JString? then IdAt(v)
    else if key in ARRAY_ID_FIELDS && v.JArray? then
      set i, id | 0 <= i < |v.items| && id in IdAt(v.items[i]) :: id
    else IdsOf(v)
  }

  function Minter(hash: string -> string, scope: string): string -> string { id => Token(hash, scope, id) }

  function Pseudonymized(hash: string -> string, scope: string, v: Json): Json { MapIds(Minter(hash, scope), v) }

  /** A token looked up; the empty one, and one never minted, stand for themselves. */
  function Resolved(reverse: map<string, string>, token: string): string {
    if token == "" then "" else Get(reverse, token).GetOr(token)
  }

  function Resolver(reverse: map<string, string>): string -> string { token => Resolved(reverse, token) }

  function ResolveAll(reverse: map<string, string>, v: Json): Json { MapIds(Resolver(reverse), v) }

  lemma {:induction false} MapIdsInTurn(f: string -> string, g: string -> string, v: Json)
    ensures MapIds(g, MapIds(f, v)) == MapIds(x => g(f(x)), v)
    decreases v, 0
  {
    match v
    case JArray(items) =>
      forall i | 0 <= i < |items| ensures MapIds(g, MapIds(f, items[i])) == MapIds(x => g(f(x)), items[i]) {
        MapIdsInTurn(f, g, items[i]);
      }
    case JObject(fields) =>
      forall i | 0 <= i < |fields|
        ensures MapField(g, fields[i].key, MapField(f, fields[i].key, fields[i].value))
             == MapField(x => g(f(x)), fields[i].key, fields[i].value)
      {
        MapFieldInTurn(f, g, fields[i].key, fields[i].value);
      }
    case _ =>
  }

  lemma {:induction false} MapFieldInTurn(f: string -> string, g: string -> string, key: string, v: Json)
    ensures MapField(g, key, MapField(f, key, v)) == MapField(x => g(f(x)), key, v)
    decreases v, 1
  {
    MapIdsInTurn(f, g, v);
    assert MapIds(f, v).JString? == v.JString? && MapIds(f, v).JArray? == v.JArray?;
  }

  lemma {:induction false} MapIdsFixes(f: string -> string, v: Json)
    requires forall id <- IdsOf(v) :: f(id) == id
    ensures MapIds(f, v) == v
    decreases v, 0
  {
    match v
    case JArray(items) =>
      forall i | 0 <= i < |items| ensures MapIds(f, items[i]) == items[i] {
        assert IdsOf(items[i]) <= IdsOf(v);
        MapIdsFixes(f, items[i]);
      }
    case JObject(fields) =>
      forall i | 0 <= i < |fields| ensures MapField(f, fields[i].key, fields[i].value) == fields[i].value {
        assert IdsOfField(fields[i].key, fields[i].value) <= IdsOf(v);
        MapFieldFixes(f, fields[i].key, fields[i].value);
      }
    case _ =>
  }

  lemma {:induction false} MapFieldFixes(f: string -> string, key: string, v: Json)
    requires forall id <- IdsOfField(key, v) :: f(id) == id
    ensures MapField(f, key, v) == v
    decreases v, 1
  {
    if key in SCALAR_ID_FIELDS && v.JString? {
      assert v.s in IdsOfField(key, v);
    } else if key in ARRAY_ID_FIELDS && v.JArray? {
      forall i | 0 <= i < |v.items| ensures AtId(f, v.items[i]) == v.items[i] {
        if v.items[i].JString? {
          assert v.items[i].s in IdAt(v.items[i]);
          assert v.items[i].s in IdsOfField(key, v);
        }
      }
    } else {
      MapIdsFixes(f, v);
    }
  }

  /** Every string left at an id position is the image of one that was there: no raw id survives. */
  lemma {:induction false} OnlyImages(f: string -> string, v: Json, out: string)
    requires out in IdsOf(MapIds(f, v))
    ensures exists id <- IdsOf(v) :: out == f(id)
    decreases v, 0
  {
    var w := MapIds(f, v);
    match v
    case JArray(items) =>
      var i :| 0 <= i < |w.items| && out in IdsOf(w.items[i]);
      OnlyImages(f, items[i], out);
      assert IdsOf(items[i]) <= IdsOf(v);
    case JObject(fields) =>
      var i :| 0 <= i < |w.fields| && out in IdsOfField(w.fields[i].key, w.fields[i].value);
      OnlyImagesField(f, fields[i].key, fields[i].value, out);
      assert IdsOfField(fields[i].key, fields[i].value) <= IdsOf(v);
  }

  lemma {:induction false} OnlyImagesField(f: string -> string, key: string, v: Json, out: string)
    requires out in IdsOfField(key, MapField(f, key, v))
    ensures exists id <- IdsOfField(key, v) :: out == f(id)
    decreases v, 1
  {
    var w := MapField(f, key, v);
    if key in SCALAR_ID_FIELDS && v.JString? {
      assert v.s in IdsOfField(key, v);
    } else if key in ARRAY_ID_FIELDS && v.JArray? {
      var i :| 0 <= i < |w.items| && out in IdAt(w.items[i]);
      assert v.items[i].s in IdAt(v.items[i]);
      assert v.items[i].s in IdsOfField(key, v);
    } else {
      OnlyImages(f, v, out);
    }
  }

  /** Which fields of an object are rewritten, by name: the six that hold one id when they hold a string, the three
      that hold ids when they hold an array, item by item; under any other name, and for any other value, only what is
      nested inside. */
  lemma FieldsByName(f: string -> string, fields: seq<Field>, i: nat)
    requires i < |fields|
    ensures MapIds(f, JObject(fields)).JObject? && |MapIds(f, JObject(fields)).fields| == |fields|
    ensures
      var key, v, w := fields[i].key, fields[i].value, MapIds(f, JObject(fields)).fields[i].value;
      && MapIds(f, JObject(fields)).fields[i].key == key
      && if v.JString? then
           w == JString(if key in {"user_id", "killer_id", "victim_id", "attacker_id", "breaker_id", "steam_id"}
                        then f(v.s) else v.s)
         else if v.JArray? then
           w.JArray? && |w.items| == |v.items|
           && forall j :: 0 <= j < |v.items| ==>
                w.items[j] == if key !in {"assist_ids", "captor_ids", "contester_ids"} then MapIds(f, v.items[j])
                              else if v.items[j].JString? then JString(f(v.items[j].s)) else v.items[j]
         else w == MapIds(f, v)
  {
    var key, v := fields[i].key, fields[i].value;
    assert MapIds(f, JObject(fields)).fields[i] == Field(key, MapField(f, key, v));
    assert v.JString? ==> MapIds(f, v) == v;
    if v.JArray? {
      ItemsOf(f, v.items);
    }
  }

  lemma ItemsOf(f: string -> string, items: seq<Json>)
    ensures MapIds(f, JArray(items)).JArray? && |MapIds(f, JArray(items)).items| == |items|
    ensures forall j :: 0 <= j < |items| ==> MapIds(f, JArray(items)).items[j] == MapIds(f, items[j])
  {
  }

  /** The number a string of decimal digits writes. */
  function ValueOf(digits: string): int {
    if digits == "" then 0
    else ValueOf(digits[..|digits| - 1]) * 10 + (digits[|digits| - 1] as int - '0' as int)
  }

  lemma {:induction false} DecimalWrites(n: nat)
    ensures ValueOf(Decimal(n)) == n && forall c :: c in Decimal(n) ==> '0' <= c <= '9'
  {
    if n >= 10 {
      DecimalWrites(n / 10);
      var d := Decimal(n);
      assert d[..|d| - 1] == Decimal(n / 10);
    } else {
      assert Decimal(n)[..0] == "";
    }
  }

  /** A token is "p_" and the hash of the scope's length in decimal, a colon, the scope and the id; the empty id stands
      for itself. */
  lemma TokenIsKeyed(hash: string -> string, scope: string, id: string) returns (digits: string)
    ensures ValueOf(digits) == |scope| && forall c :: c in digits ==> '0' <= c <= '9'
    ensures Token(hash, scope, id) == if id == "" then "" else "p_" + hash(digits + ":" + scope + id)
  {
    digits := Decimal(|scope|);
    DecimalWrites(|scope|);
  }

  /** Resolving a published payload gives back the original, if the table resolves each of its tokens. */
  lemma RoundTrip(hash: string -> string, scope: string, reverse: map<string, string>, v: Json)
    requires forall id <- IdsOf(v) :: Resolved(reverse, Token(hash, scope, id)) == id
    ensures ResolveAll(reverse, Pseudonymized(hash, scope, v)) == v
  {
    var f, g := Minter(hash, scope), Resolver(reverse);
    MapIdsInTurn(f, g, v);
    MapIdsFixes(x => g(f(x)), v);
  }

  /** Two ids that a token was minted for, and the token, coincide. */
  ghost predicate Collide(hash: string -> string, p: (string, string), q: (string, string)) {
    Token(hash, p.0, p.1) == Token(hash, q.0, q.1) && p.1 != q.1
  }

  /** A hash without collisions gives tokens without collisions: the key never merges two players. */
  lemma InjectiveHashNeverCollides(hash: string -> string, p: (string, string), q: (string, string))
    requires forall x, y :: hash(x) == hash(y) ==> x == y
    requires p.1 != "" && q.1 != ""
    ensures Token(hash, p.0, p.1) == Token(hash, q.0, q.1) <==> p == q
  {
    if Token(hash, p.0, p.1) == Token(hash, q.0, q.1) {
      assert Token(hash, p.0, p.1)[2..] == hash(DerivationKey(p.0, p.1));
      assert Token(hash, q.0, q.1)[2..] == hash(DerivationKey(q.0, q.1));
      KeyInjective(p.0, p.1, q.0, q.1);
    }
  }

  ghost predicate IsKeyOf(minted: set<(string, string)>, key: string) {
    exists p <- minted :: key == DerivationKey(p.0, p.1)
  }

  ghost predicate IsTokenOf(hash: string -> string, minted: set<(string, string)>, token: string, id: string) {
    exists p <- minted :: token == Token(hash, p.0, p.1) && id == p.1
  }

  /** The two tables hold a token for each minted pair, and each token leads to an id it was minted for. */
  ghost predicate TablesOk(hash: string -> string, forward: map<string, string>, reverse: map<string, string>,
                           minted: set<(string, string)>) {
    && (forall p <- minted ::
          p.1 != "" && Get(forward, DerivationKey(p.0, p.1)) == Some(Token(hash, p.0, p.1))
          && Token(hash, p.0, p.1) in reverse)
    && (forall key <- forward :: IsKeyOf(minted, key))
    && (forall t <- reverse :: IsTokenOf(hash, minted, t, reverse[t]))
  }

  lemma OneMore(hash: string -> string, minted: set<(string, string)>, q: (string, string))
    ensures IsKeyOf(minted + {q}, DerivationKey(q.0, q.1))
    ensures IsTokenOf(hash, minted + {q}, Token(hash, q.0, q.1), q.1)
    ensures forall key :: IsKeyOf(minted, key) ==> IsKeyOf(minted + {q}, key)
    ensures forall t, id :: IsTokenOf(hash, minted, t, id) ==> IsTokenOf(hash, minted + {q}, t, id)
  {
    hide DerivationKey, Token;
    assert q in minted + {q};
    forall key | IsKeyOf(minted, key) ensures IsKeyOf(minted + {q}, key) {
      var p :| p in minted && key == DerivationKey(p.0, p.1);
      assert p in minted + {q};
    }
    forall t, id | IsTokenOf(hash, minted, t, id) ensures IsTokenOf(hash, minted + {q}, t, id) {
      var p :| p in minted && t == Token(hash, p.0, p.1) && id == p.1;
      assert p in minted + {q};
    }
  }

  lemma MintKeepsTables(hash: string -> string, forward: map<string, string>, reverse: map<string, string>,
                        minted: set<(string, string)>, scope: string, id: string)
    requires TablesOk(hash, forward, reverse, minted) && id != ""
    ensures
      var key, token := DerivationKey(scope, id), Token(hash, scope, id);
      TablesOk(hash, forward[key := token], reverse[token := id], minted + {(scope, id)})
  {
    hide DerivationKey, Token, IsKeyOf, IsTokenOf;
    OneMore(hash, minted, (scope, id));
    forall p <- minted | DerivationKey(p.0, p.1) == DerivationKey(scope, id) ensures p == (scope, id) {
      KeyInjective(p.0, p.1, scope, id);
    }
  }

  lemma HitIsMinted(hash: string -> string, forward: map<string, string>, reverse: map<string, string>,
                    minted: set<(string, string)>, scope: string, id: string)
    requires TablesOk(hash, forward, reverse, minted) && DerivationKey(scope, id) in forward
    ensures (scope, id) in minted && forward[DerivationKey(scope, id)] == Token(hash, scope, id)
  {
    hide DerivationKey, Token;
    var p :| p in minted && DerivationKey(scope, id) == DerivationKey(p.0, p.1);
    KeyInjective(p.0, p.1, scope, id);
  }

  /** The process's two tables. `minted` records the (scope, id) pairs a token was made for. */
  class Pseudonyms {
    const hash: string -> string
    var forward: map<string, string>
    var reverse: map<string, string>
    ghost var minted: set<(string, string)>

    ghost predicate Valid()
      reads this
    {
      TablesOk(hash, forward, reverse, minted)
    }

    ghost predicate NoCollision()
      reads this
    {
      forall p <- minted, q <- minted :: !Collide(hash, p, q)
    }

    constructor (hash: string -> string)
      ensures Valid() && this.hash == hash && minted == {}
    {
      this.hash, forward, reverse, minted := hash, map[], map[], {};
    }

    method MintPlayerId(id: string, scope: string) returns (token: string)
      requires Valid()
      modifies this
      ensures Valid() && token == Token(hash, scope, id)
      ensures minted == old(minted) + if id == "" then {} else {(scope, id)}
    {
      hide TablesOk, DerivationKey;
      if id == "" {
        return "";
      }
      var key := DerivationKey(scope, id);
      if key in forward {
        HitIsMinted(hash, forward, reverse, minted, scope, id);
        return forward[key];
      }
      MintKeepsTables(hash, forward, reverse, minted, scope, id);
      token := "p_" + hash(key);
      forward := forward[key := token];
      reverse := reverse[token := id];
      minted := minted + {(scope, id)};
    }

    /** The copy of a payload with every id replaced; exactly the ids in it get tokens. */
    method Walk(v: Json, scope: string) returns (r: Json)
      requires Valid()
      modifies this
      ensures Valid() && r == Pseudonymized(hash, scope, v)
      ensures Minted(scope, IdsOf(v))
      decreases v, 0
    {
      hide TablesOk, Token;
      match v
      case JArray(items) =>
        var out := [];
        for n := 0 to |items|
          invariant Valid() && |out| == n
          invariant forall i :: 0 <= i < n ==> out[i] == Pseudonymized(hash, scope, items[i])
          invariant Between(scope, IdsOf(v))
          invariant forall i :: 0 <= i < n ==> Has(scope, IdsOf(items[i]))
        {
          var w := Walk(items[n], scope);
          out := out + [w];
        }
        r := JArray(out);
      case JObject(fields) =>
        var out := [];
        for n := 0 to |fields|
          invariant Valid() && |out| == n
          invariant forall i :: 0 <= i < n ==>
            out[i] == Field(fields[i].key, MapField(Minter(hash, scope), fields[i].key, fields[i].value))
          invariant Between(scope, IdsOf(v))
          invariant forall i :: 0 <= i < n ==> Has(scope, IdsOfField(fields[i].key, fields[i].value))
        {
          var w := WalkField(fields[n].key, fields[n].value, scope);
          out := out + [Field(fields[n].key, w)];
        }
        r := JObject(out);
      case _ =>
        r := v;
    }

    method WalkField(key: string, v: Json, scope: string) returns (r: Json)
      requires Valid()
      modifies this
      ensures Valid() && r == MapField(Minter(hash, scope), key, v)
      ensures Minted(scope, IdsOfField(key, v))
      decreases v, 1
    {
      hide TablesOk, Token;
      if key in SCALAR_ID_FIELDS && v.JString? {
        var token := MintPlayerId(v.s, scope);
        r := JString(token);
      } else if key in ARRAY_ID_FIELDS && v.JArray? {
        var out := WalkIds(v.items, scope);
        r := JArray(out);
      } else {
        r := Walk(v, scope);
      }
    }

    /** The items of an id array: strings get tokens, anything else is kept. */
    method WalkIds(items: seq<Json>, scope: string) returns (out: seq<Json>)
      requires Valid()
      modifies this
      ensures Valid() && out == seq(|items|, i requires 0 <= i < |items| => AtId(Minter(hash, scope), items[i]))
      ensures Minted(scope, set i, id | 0 <= i < |items| && id in IdAt(items[i]) :: id)
    {
      hide TablesOk, Token;
      ghost var ids := set i, id | 0 <= i < |items| && id in IdAt(items[i]) :: id;
      out := [];
      for n := 0 to |items|
        invariant Valid() && |out| == n
        invariant forall i :: 0 <= i < n ==> out[i] == AtId(Minter(hash, scope), items[i])
        invariant Between(scope, ids)
        invariant forall i :: 0 <= i < n ==> Has(scope, IdAt(items[i]))
      {
        var v := items[n];
        if v.JString? {
          assert v.s in IdAt(items[n]);
          var token := MintPlayerId(v.s, scope);
          v := JString(token);
        }
        out := out + [v];
      }
    }

    /** Every id of the set has been minted in the scope. */
    ghost predicate Has(scope: string, ids: set<string>)
      reads this
    {
      forall id <- ids :: id != "" ==> (scope, id) in minted
    }

    /** Nothing but ids of the set has been minted since, and nothing forgotten. */
    twostate predicate Between(scope: string, ids: set<string>)
      reads this
    {
      old(minted) <= minted && forall p <- minted - old(minted) :: p.0 == scope && p.1 in ids
    }

    twostate predicate Minted(scope: string, ids: set<string>)
      reads this
    {
      Between(scope, ids) && Has(scope, ids)
    }

    /** Every token ever minted resolves to its own id exactly when no two ids share one. */
    lemma ResolvesUnlessCollision()
      requires Valid()
      ensures (forall p <- minted :: Resolved(reverse, Token(hash, p.0, p.1)) == p.1) <==> NoCollision()
    {
      if NoCollision() {
        forall p <- minted ensures Resolved(reverse, Token(hash, p.0, p.1)) == p.1 {
          var q :| q in minted && Token(hash, q.0, q.1) == Token(hash, p.0, p.1)
                   && reverse[Token(hash, p.0, p.1)] == q.1;
          assert !Collide(hash, p, q);
        }
      } else {
        var p, q :| p in minted && q in minted && Collide(hash, p, q);
        assert Resolved(reverse, Token(hash, p.0, p.1)) == Resolved(reverse, Token(hash, q.0, q.1));
      }
    }

    /** After any mints, a payload published at any time before still resolves to itself. */
    lemma StillResolves(scope: string, v: Json)
      requires Valid() && NoCollision() && Has(scope, IdsOf(v))
      ensures ResolveAll(reverse, Pseudonymized(hash, scope, v)) == v
    {
      ResolvesUnlessCollision();
      forall id <- IdsOf(v) ensures Resolved(reverse, Token(hash, scope, id)) == id {
        if id != "" {
          var p := (scope, id);
          assert p in minted;
        }
      }
      RoundTrip(hash, scope, reverse, v);
    }
  }

  // Re-keying a lookup for publication

  /** A career row: its own id column, when it has one, and the rest. */
  datatype Career = Career(steamId: Option<string>, stats: string)

  function Published(row: Career, token: string): Career {
    if row.steamId.Some? then row.(steamId := Some(token)) else row
  }

  /** Pair `i` is the last to put a row under its token. */
  ghost predicate Decides(bySteamId: map<string, Career>, pairs: seq<(string, string)>, i: nat, token: string) {
    && i < |pairs| && pairs[i].0 == token && pairs[i].1 in bySteamId
    && forall j :: i < j < |pairs| && pairs[j].0 == token ==> pairs[j].1 !in bySteamId
  }

  /** One pair more: it decides its own token if its id has a row, and leaves every other token alone. */
  lemma DecidesNext(bySteamId: map<string, Career>, pairs: seq<(string, string)>, n: nat, i: nat, t: string)
    requires n < |pairs|
    ensures Decides(bySteamId, pairs[..n + 1], i, t)
        <==> if pairs[n].1 in bySteamId && t == pairs[n].0 then i == n else Decides(bySteamId, pairs[..n], i, t)
  {
    assert forall j :: 0 <= j < n ==> pairs[..n + 1][j] == pairs[..n][j] == pairs[j];
    assert pairs[..n + 1][n] == pairs[n];
  }

  /** The reply speaks only in tokens: one row per token whose id has one, its id column rewritten. */
  method RekeyByToken(bySteamId: map<string, Career>, pairs: seq<(string, string)>) returns (out: map<string, Career>)
    ensures forall token :: token in out <==> exists i: nat :: Decides(bySteamId, pairs, i, token)
    ensures forall token, i: nat :: Decides(bySteamId, pairs, i, token) ==>
              token in out && out[token] == Published(bySteamId[pairs[i].1], token)
    ensures forall token <- out :: out[token].steamId.Some? ==> out[token].steamId.value == token
  {
    out := map[];
    for n := 0 to |pairs|
      invariant forall token :: token in out <==> exists i: nat :: Decides(bySteamId, pairs[..n], i, token)
      invariant forall token, i: nat :: Decides(bySteamId, pairs[..n], i, token) ==>
        token in out && out[token] == Published(bySteamId[pairs[i].1], token)
      invariant forall token <- out :: out[token].steamId.Some? ==> out[token].steamId.value == token
    {
      var (token, steam) := pairs[n];
      forall t, i: nat
        ensures Decides(bySteamId, pairs[..n + 1], i, t)
            <==> if steam in bySteamId && t == token then i == n else Decides(bySteamId, pairs[..n], i, t)
      {
        DecidesNext(bySteamId, pairs, n, i, t);
      }
      if steam in bySteamId {
        out := out[token := Published(bySteamId[steam], token)];
        assert Decides(bySteamId, pairs[..n + 1], n, token);
      }
    }
    assert pairs[..|pairs|] == pairs;
  }
}
