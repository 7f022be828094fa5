/** The Redis cache of clients: its values, the key scheme, the replies of
    `GET` and what `JSON.parse` makes of them, and the cache transitions of
    the client operations as functions of the cache before them. */
module Cache {
  import opened Js
  import opened Seqs
  import opened Documents

  /** A value as the code stores it. `SET` of a number keeps the number's
      text, `SET` of `JSON.stringify(c)` keeps the serialised record (taken
      to be the record itself), `HSET` keeps a hash of text fields. */
  datatype Value =
    | Id(n: Num)
    | Json(record: Cliente)
    | Hash(fields: map<string, string>)

  /** The entry under `k`, if any. */
  function Entry(m: map<string, Value>, k: string): Option<Value> {
    if k in m then Some(m[k]) else None
  }

  /** The reply of `GET k`: null for a missing key, the stored text, or the
      WRONGTYPE error for a hash. */
  datatype Reply = Nil | IdText(n: Num) | JsonText(c: Cliente) | WrongType

  function GetReply(m: map<string, Value>, k: string): (r: Reply)
    ensures r == Nil <==> k !in m
    ensures r == WrongType <==> k in m && m[k].Hash?
  {
    if k !in m then Nil
    else match m[k]
      case Id(n) => IdText(n)
      case Json(c) => JsonText(c)
      case Hash(_) => WrongType
  }

  /** `HSET k f1 v1 ...`: the fields are merged into the hash under `k` (a new
      one when `k` is absent); a key holding a string is a WRONGTYPE error
      and nothing changes. */
  function HSetResult(m: map<string, Value>, k: string, fields: map<string, string>): (r: Option<map<string, Value>>)
    ensures r.None? <==> k in m && !m[k].Hash?
    ensures r.Some? ==> k in r.value && r.value[k].Hash?
    ensures r.Some? ==> forall f :: f in fields ==> f in r.value[k].fields && r.value[k].fields[f] == fields[f]
    ensures r.Some? && k in m ==> forall f :: f in m[k].fields && f !in fields ==> f in r.value[k].fields && r.value[k].fields[f] == m[k].fields[f]
    ensures r.Some? ==> r.value[k].fields.Keys == fields.Keys + (if k in m then m[k].fields.Keys else {})
    ensures r.Some? ==> forall j :: j != k ==> Entry(r.value, j) == Entry(m, j)
  {
    if k !in m then Some(m[k := Hash(fields)])
    else match m[k]
      case Hash(prev) => Some(m[k := Hash(prev + fields)])
      case _ => None
  }

  /** What `JSON.parse` gives for the reply of a `GET`: `JSON.parse(null)` is
      null, a number's text is a number (the text `NaN` is no JSON and
      throws), a record is a record; a rejected `GET` has already thrown. */
  datatype Parsed = Null | Number(i: int) | Record(c: Cliente) | Thrown

  function ParseReply(r: Reply): Parsed {
    match r
    case Nil => Null
    case IdText(n) => if n.Int? then Number(n.i) else Thrown
    case JsonText(c) => Record(c)
    case WrongType => Thrown
  }

  const Prefix := "clientes:"
  const NamePrefix := "clientes:names:"

  /** `clientes:<nro_cliente>`, the key of a client's record. */
  function IdKey(n: Num): string {
    Prefix + NumText(n)
  }

  /** `clientes:names:<nombre><apellido>`, the key of a client's number. The
      two names are concatenated with no separator. */
  function NameKey(nombre: string, apellido: string): string {
    NamePrefix + nombre + apellido
  }

  /** `clientes:<nombre><apellido>`, the key `insertClientRedis` gives a
      client's number. */
  function LegacyNameKey(nombre: string, apellido: string): string {
    Prefix + nombre + apellido
  }

  /** `clientes:<nro_cliente>:telefonos:<index>`, the hash of one phone. */
  function PhoneKey(n: Num, index: nat): string {
    Prefix + NumText(n) + ":telefonos:" + NatText(index)
  }

  predicate IsNameSlot(k: string) {
    NamePrefix <= k
  }

  /** Every key of the `clientes:names:` family holds a client number: what
      the read-through lookups rely on. */
  predicate NameSlotsHoldIds(m: map<string, Value>) {
    forall k :: k in m && IsNameSlot(k) ==> m[k].Id?
  }

  lemma NameKeyIsNameSlot(nombre: string, apellido: string)
    ensures IsNameSlot(NameKey(nombre, apellido))
  {
    assert NameKey(nombre, apellido) == NamePrefix + (nombre + apellido);
  }

  /** A record key is never a name key: a number's text never starts with `n`. */
  lemma IdKeyNotNameSlot(n: Num)
    ensures !IsNameSlot(IdKey(n))
  {
    NumTextShape(n);
    assert IdKey(n)[9] == NumText(n)[0];
  }

  lemma PhoneKeyNotNameSlot(n: Num, index: nat)
    ensures !IsNameSlot(PhoneKey(n, index))
  {
    NumTextShape(n);
    assert PhoneKey(n, index)[9] == NumText(n)[0];
  }

  /** Different client numbers have different record keys. */
  lemma IdKeyInjective(a: Num, b: Num)
    requires IdKey(a) == IdKey(b)
    ensures a == b
  {
    assert NumText(a) == IdKey(a)[9..];
    assert NumText(b) == IdKey(b)[9..];
    NumTextInjective(a, b);
  }

  /** Two name keys coincide exactly when the concatenated names do, so
      ("Ann", "aLee") and ("Anna", "Lee") share one key. */
  lemma NameKeyConcatenation(n1: string, a1: string, n2: string, a2: string)
    ensures NameKey(n1, a1) == NameKey(n2, a2) <==> n1 + a1 == n2 + a2
  {
    assert NameKey(n1, a1) == NamePrefix + (n1 + a1);
    assert NameKey(n2, a2) == NamePrefix + (n2 + a2);
    if NameKey(n1, a1) == NameKey(n2, a2) {
      assert n1 + a1 == NameKey(n1, a1)[15..];
    }
  }

  /** A phone key is never a record key. */
  lemma PhoneKeyNotIdKey(n: Num, index: nat, m: Num)
    ensures PhoneKey(n, index) != IdKey(m)
  {
    NumTextShape(n);
    NumTextShape(m);
    var p, q := PhoneKey(n, index), IdKey(m);
    assert p[9 + |NumText(n)|] == ':';
    assert forall i :: 9 <= i < |q| ==> q[i] == NumText(m)[i - 9];
  }

  /** The phones of one client have different keys, and so do the phones of
      different clients. */
  lemma PhoneKeyInjective(n1: Num, i1: nat, n2: Num, i2: nat)
    requires PhoneKey(n1, i1) == PhoneKey(n2, i2)
    ensures n1 == n2 && i1 == i2
  {
    NumTextShape(n1);
    NumTextShape(n2);
    var t1, t2 := NumText(n1), NumText(n2);
    var p := PhoneKey(n1, i1);
    assert p == PhoneKey(n2, i2);
    assert p[9 + |t1|] == ':' && p[9 + |t2|] == ':';
    assert forall i :: 9 <= i < 9 + |t1| ==> p[i] == t1[i - 9];
    assert forall i :: 9 <= i < 9 + |t2| ==> p[i] == t2[i - 9];
    assert t1 == p[9..9 + |t1|];
    assert t2 == p[9..9 + |t2|];
    NumTextInjective(n1, n2);
    assert NatText(i1) == p[9 + |t1| + 11..];
    assert NatText(i2) == p[9 + |t2| + 11..];
    NatTextDigits(i1);
    NatTextDigits(i2);
  }

  /** The name key a cached record points back to, as `updateClient` and
      `deleteClient` compute it from `JSON.parse(GET clientes:<nro>)`:
      `None` where reading `.nombre` throws (a null or a failed read). A
      cached number has no `nombre`, so it names the key of "undefined". */
  function RecordedNameKey(m: map<string, Value>, nro: Num): (r: Option<string>)
    ensures r.Some? ==> IsNameSlot(r.value)
  {
    match ParseReply(GetReply(m, IdKey(nro)))
    case Record(c) => NameKeyIsNameSlot(c.nombre, c.apellido); Some(NameKey(c.nombre, c.apellido))
    case Number(_) => NameKeyIsNameSlot("undefined", "undefined"); Some(NameKey("undefined", "undefined"))
    case Null => None
    case Thrown => None
  }

  lemma RecordedNameKeyCases(m: map<string, Value>, nro: Num)
    ensures IdKey(nro) in m && m[IdKey(nro)].Json? ==>
      RecordedNameKey(m, nro) == Some(NameKey(m[IdKey(nro)].record.nombre, m[IdKey(nro)].record.apellido))
    ensures RecordedNameKey(m, nro).None? <==>
      IdKey(nro) !in m || m[IdKey(nro)].Hash? || m[IdKey(nro)] == Id(NaN)
  {
  }

  /** The two writes of a read-through miss and of `clientAndCellphones`:
      the name key gets the number, then the record key gets the record. */
  function Cached(m: map<string, Value>, c: Cliente): map<string, Value> {
    m[NameKey(c.nombre, c.apellido) := Id(c.nroCliente)][IdKey(c.nroCliente) := Json(c)]
  }

  /** After caching a client, both keys resolve: its name to its number and
      its number to its record; no other key changes. */
  lemma CachedResolves(m: map<string, Value>, c: Cliente)
    ensures GetReply(Cached(m, c), NameKey(c.nombre, c.apellido)) == IdText(c.nroCliente)
    ensures ParseReply(GetReply(Cached(m, c), IdKey(c.nroCliente))) == Record(c)
    ensures forall k :: k != NameKey(c.nombre, c.apellido) && k != IdKey(c.nroCliente) ==>
      Entry(Cached(m, c), k) == Entry(m, k)
    ensures NameSlotsHoldIds(m) ==> NameSlotsHoldIds(Cached(m, c))
  {
    NameKeyIsNameSlot(c.nombre, c.apellido);
    IdKeyNotNameSlot(c.nroCliente);
  }

  /** Caching the clients one after the other. */
  function CachedAll(m: map<string, Value>, cs: seq<Cliente>): map<string, Value> {
    if cs == [] then m else Cached(CachedAll(m, cs[..|cs| - 1]), cs[|cs| - 1])
  }

  /** No later client of `cs` has the number of `cs[j]`. */
  predicate LastWithNumber(cs: seq<Cliente>, j: int)
    requires 0 <= j < |cs|
  {
    forall l :: j < l < |cs| ==> cs[l].nroCliente != cs[j].nroCliente
  }

  /** No later client of `cs` has the concatenated name of `cs[j]`. */
  predicate LastWithName(cs: seq<Cliente>, j: int)
    requires 0 <= j < |cs|
  {
    forall l :: j < l < |cs| ==> NameKey(cs[l].nombre, cs[l].apellido) != NameKey(cs[j].nombre, cs[j].apellido)
  }

  /** After caching a sequence of clients, the last client with each number
      has its full record, `telefonos` included, under that number: a later
      client with the same number overwrites an earlier one. */
  lemma {:induction false} CachedAllRecords(m: map<string, Value>, cs: seq<Cliente>)
    ensures forall j :: 0 <= j < |cs| && LastWithNumber(cs, j) ==>
      Entry(CachedAll(m, cs), IdKey(cs[j].nroCliente)) == Some(Json(cs[j]))
  {
    if cs != [] {
      var p := cs[..|cs| - 1];
      var x := cs[|cs| - 1];
      CachedAllRecords(m, p);
      forall j | 0 <= j < |p| && LastWithNumber(cs, j)
        ensures Entry(CachedAll(m, cs), IdKey(cs[j].nroCliente)) == Some(Json(cs[j]))
      {
        assert p[j] == cs[j];
        assert LastWithNumber(p, j);
        IdKeyNotNameSlot(cs[j].nroCliente);
        NameKeyIsNameSlot(x.nombre, x.apellido);
        if IdKey(cs[j].nroCliente) == IdKey(x.nroCliente) {
          IdKeyInjective(cs[j].nroCliente, x.nroCliente);
        }
      }
    }
  }

  /** After caching a sequence of clients, the last client with each
      concatenated name has its number under that name. */
  lemma {:induction false} CachedAllNames(m: map<string, Value>, cs: seq<Cliente>)
    ensures forall j :: 0 <= j < |cs| && LastWithName(cs, j) ==>
      Entry(CachedAll(m, cs), NameKey(cs[j].nombre, cs[j].apellido)) == Some(Id(cs[j].nroCliente))
  {
    if cs != [] {
      var p := cs[..|cs| - 1];
      var x := cs[|cs| - 1];
      CachedAllNames(m, p);
      IdKeyNotNameSlot(x.nroCliente);
      forall j | 0 <= j < |cs| && LastWithName(cs, j)
        ensures Entry(CachedAll(m, cs), NameKey(cs[j].nombre, cs[j].apellido)) == Some(Id(cs[j].nroCliente))
      {
        NameKeyIsNameSlot(cs[j].nombre, cs[j].apellido);
        if j < |p| {
          assert p[j] == cs[j];
          assert LastWithName(p, j);
        }
      }
    }
  }

  /** Caching a sequence of clients changes no key but their name and record
      keys, and keeps every name key holding a number. */
  lemma {:induction false} CachedAllFrame(m: map<string, Value>, cs: seq<Cliente>)
    ensures forall k :: (forall c :: c in cs ==> k != NameKey(c.nombre, c.apellido) && k != IdKey(c.nroCliente)) ==>
      Entry(CachedAll(m, cs), k) == Entry(m, k)
    ensures NameSlotsHoldIds(m) ==> NameSlotsHoldIds(CachedAll(m, cs))
  {
    if cs != [] {
      var p := cs[..|cs| - 1];
      var x := cs[|cs| - 1];
      CachedAllFrame(m, p);
      CachedResolves(CachedAll(m, p), x);
      assert x in cs;
      assert forall c :: c in p ==> c in cs;
    }
  }

  /** When client numbers are unique, as for a primary key, every client of
      `cs` has its own full record under its number. */
  lemma CachedAllFullRecords(m: map<string, Value>, cs: seq<Cliente>)
    requires forall i, j :: 0 <= i < j < |cs| ==> cs[i].nroCliente != cs[j].nroCliente
    ensures forall c :: c in cs ==> Entry(CachedAll(m, cs), IdKey(c.nroCliente)) == Some(Json(c))
  {
    CachedAllRecords(m, cs);
    forall c | c in cs ensures Entry(CachedAll(m, cs), IdKey(c.nroCliente)) == Some(Json(c)) {
      var j :| 0 <= j < |cs| && cs[j] == c;
      assert LastWithNumber(cs, j);
    }
  }

  /** The cache side of `updateClient`: delete the recorded name key, then set
      the new name key and the new record; a failed read of the old record
      throws before any write. */
  function CacheAfterUpdate(m: map<string, Value>, rec: Cliente): map<string, Value> {
    match RecordedNameKey(m, rec.nroCliente)
    case None => m
    case Some(prev) => Cached(m - {prev}, rec)
  }

  /** When the record was readable, the old name key is gone unless it is the
      new one, the new name resolves to the number and the number to the new
      record, and nothing else changes; otherwise the cache is untouched. */
  lemma CacheAfterUpdateSpec(m: map<string, Value>, rec: Cliente)
    ensures RecordedNameKey(m, rec.nroCliente).None? ==> CacheAfterUpdate(m, rec) == m
    ensures RecordedNameKey(m, rec.nroCliente).Some? ==>
      var prev := RecordedNameKey(m, rec.nroCliente).value;
      var r := CacheAfterUpdate(m, rec);
      && Entry(r, NameKey(rec.nombre, rec.apellido)) == Some(Id(rec.nroCliente))
      && ParseReply(GetReply(r, IdKey(rec.nroCliente))) == Record(rec)
      && (prev != NameKey(rec.nombre, rec.apellido) ==> prev !in r)
      && forall k :: k != prev && k != NameKey(rec.nombre, rec.apellido) && k != IdKey(rec.nroCliente) ==>
           Entry(r, k) == Entry(m, k)
    ensures NameSlotsHoldIds(m) ==> NameSlotsHoldIds(CacheAfterUpdate(m, rec))
  {
    match RecordedNameKey(m, rec.nroCliente)
    case None =>
    case Some(prev) =>
      CachedResolves(m - {prev}, rec);
      IdKeyNotNameSlot(rec.nroCliente);
  }

  /** The cache side of `deleteClient`: delete the recorded name key and the
      record key; a failed read of the old record throws before any write. */
  function CacheAfterDelete(m: map<string, Value>, nro: Num): map<string, Value> {
    match RecordedNameKey(m, nro)
    case None => m
    case Some(prev) => m - {prev} - {IdKey(nro)}
  }

  /** A readable record loses exactly its two keys; otherwise the cache is
      untouched, and a name key of the deleted client is left orphaned. */
  lemma CacheAfterDeleteSpec(m: map<string, Value>, nro: Num)
    ensures RecordedNameKey(m, nro).None? ==> CacheAfterDelete(m, nro) == m
    ensures RecordedNameKey(m, nro).Some? ==>
      var prev := RecordedNameKey(m, nro).value;
      var r := CacheAfterDelete(m, nro);
      && prev !in r && IdKey(nro) !in r
      && forall k :: k != prev && k != IdKey(nro) ==> Entry(r, k) == Entry(m, k)
    ensures NameSlotsHoldIds(m) ==> NameSlotsHoldIds(CacheAfterDelete(m, nro))
  {
  }

  /** The Redis server reached by the code: string keys to values. */
  class Redis {
    var entries: map<string, Value>

    constructor ()
      ensures entries == map[]
    {
      entries := map[];
    }

    method Get(k: string) returns (r: Reply)
      ensures r == GetReply(entries, k)
    {
      r := GetReply(entries, k);
    }

    method Set(k: string, v: Value)
      modifies this
      ensures entries == old(entries)[k := v]
    {
      entries := entries[k := v];
    }

    method Del(k: string)
      modifies this
      ensures entries == old(entries) - {k}
    {
      entries := entries - {k};
    }

    method Exists(k: string) returns (b: bool)
      ensures b <==> k in entries
    {
      b := k in entries;
    }

    /** `HSET`; `ok` is false for the WRONGTYPE error. */
    method HSet(k: string, fields: map<string, string>) returns (ok: bool)
      modifies this
      ensures ok <==> HSetResult(old(entries), k, fields).Some?
      ensures entries == if ok then HSetResult(old(entries), k, fields).value else old(entries)
    {
      var r := HSetResult(entries, k, fields);
      if r.Some? {
        entries := r.value;
        ok := true;
      } else {
        ok := false;
      }
    }

    method FlushAll()
      modifies this
      ensures entries == map[]
    {
      entries := map[];
    }
  }
}
