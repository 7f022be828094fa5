/** The queries that touch the document store and the cache together: the
    bulk load, the read-through lookups, the two views and the client and
    product operations. Each query is one sequential step against `Mongo`
    (database `db2`) and `Redis`. */
module Queries {
  import opened Js
  import opened Seqs
  import opened Documents
  import opened Cache
  import opened Ingest
  import opened Aggregations

  /** The database `db2`: its three collections, in insertion order, and the
      names of its views. */
  class Mongo {
    var clientes: seq<Cliente>
    var facturas: seq<Factura>
    var productos: seq<Producto>
    var views: set<string>

    constructor ()
      ensures clientes == [] && facturas == [] && productos == [] && views == {}
    {
      clientes, facturas, productos, views := [], [], [], {};
    }

    method DropDatabase()
      modifies this
      ensures clientes == [] && facturas == [] && productos == [] && views == {}
    {
      clientes, facturas, productos, views := [], [], [], {};
    }
  }

  // ---------------------------------------------------------------------
  // loadData and clientAndCellphones

  /** `insertMany`: the driver refuses an empty batch and throws; otherwise
      the documents are appended. */
  function InsertMany<T>(collection: seq<T>, docs: seq<T>): (r: Option<seq<T>>)
    ensures r.None? <==> docs == []
    ensures r.Some? ==> |r.value| == |collection| + |docs| && r.value[..|collection|] == collection && r.value[|collection|..] == docs
  {
    if docs == [] then None else Some(collection + docs)
  }

  /** `loadData`: drop the database and flush the cache, twice, then insert
      the generated invoices, clients and products. An empty file makes its
      `insertMany` throw, and the later inserts do not run. */
  method LoadData(
    db: Mongo, redis: Redis,
    facturaRows: seq<FacturaRow>, detalleRows: seq<DetalleRow>,
    clienteRows: seq<ClienteRow>, telefonoRows: seq<TelefonoRow>,
    productoRows: seq<ProductoRow>, parseFloat: ParseFloat)
    returns (outcome: Outcome)
    modifies db, redis
    ensures redis.entries == map[]
    ensures db.views == {}
    ensures db.facturas == GenerateFacturas(facturaRows, detalleRows, parseFloat)
    ensures db.clientes == if facturaRows != [] then GenerateClientes(clienteRows, telefonoRows) else []
    ensures db.productos == if facturaRows != [] && clienteRows != [] then GenerateProductos(productoRows, parseFloat) else []
    ensures outcome == Done <==> facturaRows != [] && clienteRows != [] && productoRows != []
  {
    db.DropDatabase();
    redis.FlushAll();
    db.DropDatabase();
    redis.FlushAll();
    var facturasArray := GenerateFacturas(facturaRows, detalleRows, parseFloat);
    var clientesArray := GenerateClientes(clienteRows, telefonoRows);
    var productosArray := GenerateProductos(productoRows, parseFloat);
    var inserted := InsertMany(db.facturas, facturasArray);
    if inserted.None? {
      return Threw;
    }
    db.facturas := inserted.value;
    var insertedClientes := InsertMany(db.clientes, clientesArray);
    if insertedClientes.None? {
      return Threw;
    }
    db.clientes := insertedClientes.value;
    var insertedProductos := InsertMany(db.productos, productosArray);
    if insertedProductos.None? {
      return Threw;
    }
    db.productos := insertedProductos.value;
    outcome := Done;
  }

  /** `clientAndCellphones`: every client, with each one's name key and
      full record written to the cache in collection order. */
  method ClientAndCellphones(db: Mongo, redis: Redis) returns (result: seq<Cliente>)
    modifies redis
    ensures result == db.clientes
    ensures redis.entries == CachedAll(old(redis.entries), db.clientes)
  {
    result := db.clientes;
    var i := 0;
    while i < |result|
      invariant 0 <= i <= |result|
      invariant redis.entries == CachedAll(old(redis.entries), result[..i])
    {
      var client := result[i];
      redis.Set(NameKey(client.nombre, client.apellido), Id(client.nroCliente));
      redis.Set(IdKey(client.nroCliente), Json(client));
      assert result[..i + 1][..i] == result[..i];
      i := i + 1;
    }
    assert result[..i] == result;
  }

  // ---------------------------------------------------------------------
  // Read-through lookups by name

  /** What a lookup prints: nothing found, or `JSON.parse` of the record read. */
  datatype Lookup = NotFound | Shown(p: Parsed)

  datatype Step = Step(result: Lookup, cache: map<string, Value>)

  function IsNamed(nombre: string, apellido: string): Cliente -> bool {
    (c: Cliente) => c.nombre == nombre && c.apellido == apellido
  }

  /** `findJacobCooper` for any name: `GET clientes:names:<name>`; on a miss,
      `findOne` in the store and, if found, cache both keys; then `GET` and
      parse the record under the number. A miss with no match writes
      nothing. */
  function ReadThrough(m: map<string, Value>, cs: seq<Cliente>, nombre: string, apellido: string): Step
    requires NameSlotsHoldIds(m)
  {
    var nk := NameKey(nombre, apellido);
    NameKeyIsNameSlot(nombre, apellido);
    if nk in m then
      Step(Shown(ParseReply(GetReply(m, IdKey(m[nk].n)))), m)
    else match FirstIndex(cs, IsNamed(nombre, apellido))
      case None => Step(NotFound, m)
      case Some(i) =>
        var m2 := Cached(m, cs[i]);
        Step(Shown(ParseReply(GetReply(m2, IdKey(cs[i].nroCliente)))), m2)
  }

  /** A hit changes nothing and does not consult the store: any collection
      gives the same step. */
  lemma ReadThroughHit(m: map<string, Value>, cs: seq<Cliente>, other: seq<Cliente>, nombre: string, apellido: string)
    requires NameSlotsHoldIds(m) && NameKey(nombre, apellido) in m
    ensures ReadThrough(m, cs, nombre, apellido).cache == m
    ensures ReadThrough(m, cs, nombre, apellido) == ReadThrough(m, other, nombre, apellido)
  {
  }

  /** A miss with a match caches the first client with that name under both
      keys and shows its full record; a miss with no match shows nothing and
      leaves the cache as it was. */
  lemma ReadThroughMiss(m: map<string, Value>, cs: seq<Cliente>, nombre: string, apellido: string)
    requires NameSlotsHoldIds(m) && NameKey(nombre, apellido) !in m
    ensures (forall c :: c in cs ==> !IsNamed(nombre, apellido)(c)) ==>
      ReadThrough(m, cs, nombre, apellido) == Step(NotFound, m)
    ensures forall i :: (0 <= i < |cs| && IsNamed(nombre, apellido)(cs[i])
      && (forall j :: 0 <= j < i ==> !IsNamed(nombre, apellido)(cs[j]))) ==>
      ReadThrough(m, cs, nombre, apellido) == Step(Shown(Record(cs[i])), Cached(m, cs[i]))
  {
    var p := IsNamed(nombre, apellido);
    match FirstIndex(cs, p)
    case None =>
    case Some(k) =>
      CachedResolves(m, cs[k]);
  }

  /** After a miss that found the client, the next lookup is a hit that shows
      the same record whatever the store then holds. */
  lemma ReadThroughThenHit(m: map<string, Value>, cs: seq<Cliente>, later: seq<Cliente>, nombre: string, apellido: string)
    requires NameSlotsHoldIds(m)
    requires ReadThrough(m, cs, nombre, apellido).result != NotFound
    ensures NameSlotsHoldIds(ReadThrough(m, cs, nombre, apellido).cache)
    ensures var s := ReadThrough(m, cs, nombre, apellido);
      NameKey(nombre, apellido) !in m ==> ReadThrough(s.cache, later, nombre, apellido) == s
  {
    var nk := NameKey(nombre, apellido);
    if nk !in m {
      var i := FirstIndex(cs, IsNamed(nombre, apellido)).value;
      CachedResolves(m, cs[i]);
      ReadThroughMiss(m, cs, nombre, apellido);
    }
  }

  /** Every lookup keeps name keys holding numbers. */
  lemma ReadThroughKeepsNameSlots(m: map<string, Value>, cs: seq<Cliente>, nombre: string, apellido: string)
    requires NameSlotsHoldIds(m)
    ensures NameSlotsHoldIds(ReadThrough(m, cs, nombre, apellido).cache)
  {
    match FirstIndex(cs, IsNamed(nombre, apellido))
    case None =>
    case Some(i) => CachedResolves(m, cs[i]);
  }

  /** The steps shared by the lookups: on a hit, the number read; on a miss
      with a match, the client found, after caching its two keys. */
  datatype Probe = Hit(n: Num) | Found(c: Cliente) | Missing

  method ProbeName(db: Mongo, redis: Redis, nombre: string, apellido: string) returns (probe: Probe)
    requires NameSlotsHoldIds(redis.entries)
    modifies redis
    ensures var m := old(redis.entries);
      match probe
      case Hit(n) => NameKey(nombre, apellido) in m && m[NameKey(nombre, apellido)] == Id(n) && redis.entries == m
      case Found(c) => NameKey(nombre, apellido) !in m && FirstIndex(db.clientes, IsNamed(nombre, apellido)).Some?
        && c == db.clientes[FirstIndex(db.clientes, IsNamed(nombre, apellido)).value] && redis.entries == Cached(m, c)
      case Missing => NameKey(nombre, apellido) !in m && FirstIndex(db.clientes, IsNamed(nombre, apellido)).None? && redis.entries == m
  {
    var nk := NameKey(nombre, apellido);
    NameKeyIsNameSlot(nombre, apellido);
    var clientId := redis.Get(nk);
    if clientId != Nil {
      return Hit(clientId.n);
    }
    var found := FirstIndex(db.clientes, IsNamed(nombre, apellido));
    if found.None? {
      return Missing;
    }
    var result := db.clientes[found.value];
    redis.Set(NameKey(result.nombre, result.apellido), Id(result.nroCliente));
    redis.Set(IdKey(result.nroCliente), Json(result));
    probe := Found(result);
  }

  /** `findJacobCooper`. */
  method FindJacobCooper(db: Mongo, redis: Redis) returns (r: Lookup)
    requires NameSlotsHoldIds(redis.entries)
    modifies redis
    ensures Step(r, redis.entries) == ReadThrough(old(redis.entries), db.clientes, "Jacob", "Cooper")
  {
    var probe := ProbeName(db, redis, "Jacob", "Cooper");
    if probe.Missing? {
      return NotFound;
    }
    var clientId := if probe.Hit? then probe.n else probe.c.nroCliente;
    var cliente := redis.Get(IdKey(clientId));
    r := Shown(ParseReply(cliente));
  }

  // ---------------------------------------------------------------------
  // findKaiBullockBills

  datatype Bills = ClientMissing | Listed(facturas: seq<Factura>) | ThrewAfterCaching

  datatype BillsStep = BillsStep(result: Bills, cache: map<string, Value>)

  /** `findKaiBullockBills` for any name, as written: the miss path caches the
      client's two keys and then assigns to the `const` holding the `GET`
      reply, which throws a TypeError before any invoice is read. A hit
      lists the invoices whose `nro_cliente` is `Number` of the cached text,
      that is the cached number. */
  function BillsByNameAsWritten(m: map<string, Value>, cs: seq<Cliente>, fs: seq<Factura>, nombre: string, apellido: string): BillsStep
    requires NameSlotsHoldIds(m)
  {
    var nk := NameKey(nombre, apellido);
    NameKeyIsNameSlot(nombre, apellido);
    if nk in m then BillsStep(Listed(BillsOf(fs, m[nk].n)), m)
    else match FirstIndex(cs, IsNamed(nombre, apellido))
      case None => BillsStep(ClientMissing, m)
      case Some(i) => BillsStep(ThrewAfterCaching, Cached(m, cs[i]))
  }

  /** `findKaiBullockBills` with the client number taken into a variable
      that may be assigned: the miss path lists the found client's invoices. */
  function BillsByName(m: map<string, Value>, cs: seq<Cliente>, fs: seq<Factura>, nombre: string, apellido: string): BillsStep
    requires NameSlotsHoldIds(m)
  {
    var nk := NameKey(nombre, apellido);
    NameKeyIsNameSlot(nombre, apellido);
    if nk in m then BillsStep(Listed(BillsOf(fs, m[nk].n)), m)
    else match FirstIndex(cs, IsNamed(nombre, apellido))
      case None => BillsStep(ClientMissing, m)
      case Some(i) => BillsStep(Listed(BillsOf(fs, cs[i].nroCliente)), Cached(m, cs[i]))
  }

  /** As written, every cache miss that finds the client fails, after writing
      both of its keys: with an empty cache and one client named Kai Bullock,
      whatever its invoices, nothing is listed. */
  lemma BillsByNameMissThrows(m: map<string, Value>, cs: seq<Cliente>, fs: seq<Factura>, nombre: string, apellido: string)
    requires NameSlotsHoldIds(m) && NameKey(nombre, apellido) !in m
    requires exists c :: c in cs && IsNamed(nombre, apellido)(c)
    ensures BillsByNameAsWritten(m, cs, fs, nombre, apellido).result == ThrewAfterCaching
    ensures BillsByNameAsWritten(m, cs, fs, nombre, apellido).cache == BillsByName(m, cs, fs, nombre, apellido).cache
    ensures BillsByName(m, cs, fs, nombre, apellido).result != ThrewAfterCaching
  {
    var c :| c in cs && IsNamed(nombre, apellido)(c);
    var k :| 0 <= k < |cs| && cs[k] == c;
    assert FirstIndex(cs, IsNamed(nombre, apellido)).Some?;
  }

  /** With the correction, a miss lists the invoices of the client found, and
      caches it so that the next call is a hit that lists the same invoices
      from the cache. The two versions agree whenever the cache hits. */
  lemma BillsByNameReadThrough(m: map<string, Value>, cs: seq<Cliente>, fs: seq<Factura>, nombre: string, apellido: string)
    requires NameSlotsHoldIds(m)
    ensures NameSlotsHoldIds(BillsByName(m, cs, fs, nombre, apellido).cache)
    ensures NameKey(nombre, apellido) in m ==> BillsByNameAsWritten(m, cs, fs, nombre, apellido) == BillsByName(m, cs, fs, nombre, apellido)
    ensures forall i :: (0 <= i < |cs| && IsNamed(nombre, apellido)(cs[i]) && (forall j :: 0 <= j < i ==> !IsNamed(nombre, apellido)(cs[j]))
      && NameKey(nombre, apellido) !in m) ==>
      && BillsByName(m, cs, fs, nombre, apellido) == BillsStep(Listed(BillsOf(fs, cs[i].nroCliente)), Cached(m, cs[i]))
      && BillsByName(Cached(m, cs[i]), cs, fs, nombre, apellido).result == Listed(BillsOf(fs, cs[i].nroCliente))
  {
    var p := IsNamed(nombre, apellido);
    match FirstIndex(cs, p)
    case None =>
    case Some(k) =>
      CachedResolves(m, cs[k]);
      NameKeyIsNameSlot(nombre, apellido);
  }

  /** `findKaiBullockBills`, as written. */
  method FindKaiBullockBills(db: Mongo, redis: Redis) returns (r: Bills)
    requires NameSlotsHoldIds(redis.entries)
    modifies redis
    ensures BillsStep(r, redis.entries) == BillsByNameAsWritten(old(redis.entries), db.clientes, db.facturas, "Kai", "Bullock")
  {
    var probe := ProbeName(db, redis, "Kai", "Bullock");
    match probe
    case Missing => r := ClientMissing;
    case Found(_) => r := ThrewAfterCaching;
    case Hit(n) => r := Listed(Filter(db.facturas, (f: Factura) => f.nroCliente == n));
  }

  /** `findKaiBullockBills`, corrected. */
  method FindKaiBullockBillsFixed(db: Mongo, redis: Redis) returns (r: Bills)
    requires NameSlotsHoldIds(redis.entries)
    modifies redis
    ensures BillsStep(r, redis.entries) == BillsByName(old(redis.entries), db.clientes, db.facturas, "Kai", "Bullock")
  {
    var probe := ProbeName(db, redis, "Kai", "Bullock");
    var client: Num;
    match probe {
      case Missing => return ClientMissing;
      case Found(c) => client := c.nroCliente;
      case Hit(n) => client := n;
    }
    r := Listed(Filter(db.facturas, (f: Factura) => f.nroCliente == client));
  }

  // ---------------------------------------------------------------------
  // The two views

  const BillsByDateView := "facturas_ordenadas_por_fecha"
  const UnbilledProductsView := "productos_no_facturados"

  /** `billsOrderedByDateView`: create the view unless a view of that name
      exists, then read it. */
  method BillsOrderedByDateView(db: Mongo) returns (r: seq<FacturaResumen>)
    modifies db
    ensures db.views == old(db.views) + {BillsByDateView}
    ensures db.clientes == old(db.clientes) && db.facturas == old(db.facturas) && db.productos == old(db.productos)
    ensures r == BillsOrderedByDate(db.facturas)
  {
    var viewExists := BillsByDateView in db.views;
    if !viewExists {
      db.views := db.views + {BillsByDateView};
    }
    r := BillsOrderedByDate(db.facturas);
  }

  /** `productsNotBilledView`: create the view unless a view of that name
      exists, then read it. */
  method ProductsNotBilledView(db: Mongo) returns (r: seq<Producto>)
    modifies db
    ensures db.views == old(db.views) + {UnbilledProductsView}
    ensures db.clientes == old(db.clientes) && db.facturas == old(db.facturas) && db.productos == old(db.productos)
    ensures r == ProductsNotBilled(db.facturas, db.productos)
  {
    var viewExists := UnbilledProductsView in db.views;
    if !viewExists {
      db.views := db.views + {UnbilledProductsView};
    }
    r := ProductsNotBilled(db.facturas, db.productos);
  }

  // ---------------------------------------------------------------------
  // Client operations

  /** `getMaxClientNumber`: the first number after `$sort` descending and
      `$limit: 1`, in MongoDB's order on numbers; 0 for an empty collection. */
  function MaxClientNumber(cs: seq<Cliente>): (r: Num)
    ensures cs == [] ==> r == Int(0)
    ensures cs != [] ==> exists c :: c in cs && c.nroCliente == r
    ensures forall c :: c in cs ==> !NumLess(r, c.nroCliente)
  {
    if cs == [] then Int(0)
    else if |cs| == 1 then cs[0].nroCliente
    else
      var rest := MaxClientNumber(cs[1..]);
      NumLessStrictTotalOrder();
      assert forall c :: c in cs ==> c == cs[0] || c in cs[1..];
      assert cs[1..][0] in cs;
      if NumLess(rest, cs[0].nroCliente) then cs[0].nroCliente else rest
  }

  /** The number `createClient` gives: 1 for the first client; one past the
      largest, so a number no client has, as soon as some number is a
      number; NaN when every number is NaN. */
  lemma NewClientNumber(cs: seq<Cliente>)
    ensures cs == [] ==> Add1(MaxClientNumber(cs)) == Int(1)
    ensures (exists c :: c in cs && c.nroCliente.Int?) ==>
      && Add1(MaxClientNumber(cs)).Int?
      && forall c :: c in cs ==> c.nroCliente != Add1(MaxClientNumber(cs)) && NumLess(c.nroCliente, Add1(MaxClientNumber(cs)))
    ensures cs != [] && (forall c :: c in cs ==> c.nroCliente == NaN) ==> Add1(MaxClientNumber(cs)) == NaN
  {
    var mx := MaxClientNumber(cs);
    if exists c :: c in cs && c.nroCliente.Int? {
      var c :| c in cs && c.nroCliente.Int?;
      assert !NumLess(mx, c.nroCliente);
      assert mx.Int?;
    }
  }

  /** The record `createClient` and `updateClient` write: no `telefonos`. */
  function NewRecord(nro: Num, nombre: string, apellido: string, direccion: string, activo: Num): (c: Cliente)
    ensures c.telefonos.None?
  {
    Cliente(nro, nombre, apellido, direccion, activo, None)
  }

  /** `createClient`: insert a client numbered one past the largest, then
      cache its number under its name and its record without phones. */
  method CreateClient(db: Mongo, redis: Redis, name: string, lastName: string, address: string, active: Num)
    modifies db, redis
    ensures var c := NewRecord(Add1(MaxClientNumber(old(db.clientes))), name, lastName, address, active);
      && db.clientes == old(db.clientes) + [c]
      && redis.entries == Cached(old(redis.entries), c)
    ensures db.facturas == old(db.facturas) && db.productos == old(db.productos) && db.views == old(db.views)
  {
    var newNroCliente := Add1(MaxClientNumber(db.clientes));
    var c := NewRecord(newNroCliente, name, lastName, address, active);
    db.clientes := db.clientes + [c];
    redis.Set(NameKey(name, lastName), Id(newNroCliente));
    redis.Set(IdKey(newNroCliente), Json(c));
  }

  function HasNumber(nro: Num): Cliente -> bool {
    (c: Cliente) => c.nroCliente == nro
  }

  /** `updateOne` on clientes: the first client with the number gets the new
      names, address and flag and keeps its number and phones; with no such
      client nothing changes. */
  function UpdatedClientes(cs: seq<Cliente>, nro: Num, nombre: string, apellido: string, direccion: string, activo: Num): (r: seq<Cliente>)
    ensures |r| == |cs|
    ensures FirstIndex(cs, HasNumber(nro)).None? ==> r == cs
    ensures FirstIndex(cs, HasNumber(nro)).Some? ==>
      var i := FirstIndex(cs, HasNumber(nro)).value;
      && r[i] == Cliente(nro, nombre, apellido, direccion, activo, cs[i].telefonos)
      && forall j :: 0 <= j < |cs| && j != i ==> r[j] == cs[j]
  {
    match FirstIndex(cs, HasNumber(nro))
    case None => cs
    case Some(i) => cs[i := cs[i].(nombre := nombre, apellido := apellido, direccion := direccion, activo := activo)]
  }

  /** `updateClient`: update the store, then, when the cached record can be
      read, delete its name key and cache the new name and record. A failed
      read throws and is caught, leaving the cache as it was. */
  method UpdateClient(db: Mongo, redis: Redis, nro: Num, name: string, lastName: string, address: string, active: Num)
    modifies db, redis
    ensures db.clientes == UpdatedClientes(old(db.clientes), nro, name, lastName, address, active)
    ensures redis.entries == CacheAfterUpdate(old(redis.entries), NewRecord(nro, name, lastName, address, active))
    ensures db.facturas == old(db.facturas) && db.productos == old(db.productos) && db.views == old(db.views)
  {
    db.clientes := UpdatedClientes(db.clientes, nro, name, lastName, address, active);
    var reply := redis.Get(IdKey(nro));
    var oldClient := ParseReply(reply);
    if oldClient.Null? || oldClient.Thrown? {
      return;
    }
    var oldKey := if oldClient.Record? then NameKey(oldClient.c.nombre, oldClient.c.apellido) else NameKey("undefined", "undefined");
    redis.Del(oldKey);
    redis.Set(NameKey(name, lastName), Id(nro));
    redis.Set(IdKey(nro), Json(NewRecord(nro, name, lastName, address, active)));
  }

  /** `deleteOne` on clientes: the first client with the number is removed. */
  function RemovedClientes(cs: seq<Cliente>, nro: Num): (r: seq<Cliente>)
    ensures FirstIndex(cs, HasNumber(nro)).None? ==> r == cs
    ensures FirstIndex(cs, HasNumber(nro)).Some? ==>
      var i := FirstIndex(cs, HasNumber(nro)).value;
      && |r| == |cs| - 1
      && multiset(r) + multiset{cs[i]} == multiset(cs)
      && r == cs[..i] + cs[i + 1..]
  {
    match FirstIndex(cs, HasNumber(nro))
    case None => cs
    case Some(i) =>
      assert cs == cs[..i] + [cs[i]] + cs[i + 1..];
      cs[..i] + cs[i + 1..]
  }

  /** `deleteClient`: delete from the store, then, when the cached record
      can be read, delete its name key and its record key. A failed read
      throws and is caught, leaving the cache as it was. */
  method DeleteClient(db: Mongo, redis: Redis, nro: Num)
    modifies db, redis
    ensures db.clientes == RemovedClientes(old(db.clientes), nro)
    ensures redis.entries == CacheAfterDelete(old(redis.entries), nro)
    ensures db.facturas == old(db.facturas) && db.productos == old(db.productos) && db.views == old(db.views)
  {
    db.clientes := RemovedClientes(db.clientes, nro);
    var reply := redis.Get(IdKey(nro));
    var oldClient := ParseReply(reply);
    if oldClient.Null? || oldClient.Thrown? {
      return;
    }
    var oldKey := if oldClient.Record? then NameKey(oldClient.c.nombre, oldClient.c.apellido) else NameKey("undefined", "undefined");
    redis.Del(oldKey);
    redis.Del(IdKey(nro));
  }

  // ---------------------------------------------------------------------
  // Product operations

  /** The codes of the products are 1, 2, ... in collection order. */
  predicate NumberedInOrder(ps: seq<Producto>) {
    forall i :: 0 <= i < |ps| ==> ps[i].codigoProducto == Int(i + 1)
  }

  /** The code `createProduct` gives: the number of products plus one. */
  function NextProductCode(ps: seq<Producto>): Num {
    Int(|ps| + 1)
  }

  /** While the codes are 1, 2, ... in order, as when products are only ever
      created by `createProduct`, the next code is new and creating a product
      keeps the numbering. */
  lemma NumberedInOrderKept(ps: seq<Producto>, p: Producto)
    requires NumberedInOrder(ps)
    ensures forall q :: q in ps ==> q.codigoProducto != NextProductCode(ps)
    ensures p.codigoProducto == NextProductCode(ps) ==> NumberedInOrder(ps + [p])
  {
  }

  /** Counting does not give a fresh code once the codes have a gap: with one
      product, coded 2, the next code is 2 again. */
  lemma NextProductCodeCollides(p: Producto)
    requires p.codigoProducto == Int(2)
    ensures NextProductCode([p]) == p.codigoProducto
    ensures !NumberedInOrder([p])
  {
    assert [p][0].codigoProducto != Int(1);
  }

  /** `createProduct`: insert a product whose code is the number of products
      plus one. Products have no cache entries. */
  method CreateProduct(db: Mongo, marca: string, nombre: string, descripcion: string, precio: Amount, stock: Num)
    modifies db
    ensures db.productos == old(db.productos) + [Producto(NextProductCode(old(db.productos)), marca, nombre, descripcion, precio, stock)]
    ensures db.clientes == old(db.clientes) && db.facturas == old(db.facturas) && db.views == old(db.views)
  {
    db.productos := db.productos + [Producto(NextProductCode(db.productos), marca, nombre, descripcion, precio, stock)];
  }

  function HasCode(code: Num): Producto -> bool {
    (p: Producto) => p.codigoProducto == code
  }

  /** `updateOne` on productos: the first product with the code gets the new
      fields and keeps its code; with no such product nothing changes. */
  function UpdatedProductos(ps: seq<Producto>, id: Num, marca: string, nombre: string, descripcion: string, precio: Amount, stock: Num): (r: seq<Producto>)
    ensures |r| == |ps|
    ensures FirstIndex(ps, HasCode(id)).None? ==> r == ps
    ensures FirstIndex(ps, HasCode(id)).Some? ==>
      var i := FirstIndex(ps, HasCode(id)).value;
      && r[i] == Producto(id, marca, nombre, descripcion, precio, stock)
      && forall j :: 0 <= j < |ps| && j != i ==> r[j] == ps[j]
  {
    match FirstIndex(ps, HasCode(id))
    case None => ps
    case Some(i) => ps[i := Producto(ps[i].codigoProducto, marca, nombre, descripcion, precio, stock)]
  }

  /** `updateProduct`. */
  method UpdateProduct(db: Mongo, id: Num, marca: string, nombre: string, descripcion: string, precio: Amount, stock: Num)
    modifies db
    ensures db.productos == UpdatedProductos(old(db.productos), id, marca, nombre, descripcion, precio, stock)
    ensures db.clientes == old(db.clientes) && db.facturas == old(db.facturas) && db.views == old(db.views)
  {
    db.productos := UpdatedProductos(db.productos, id, marca, nombre, descripcion, precio, stock);
  }
}
