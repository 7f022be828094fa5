/** The aggregation pipelines of the queries and views over the three
    collections, as functions of the collections. `$lookup` joins with
    MongoDB's equality on numbers, under which NaN equals NaN. */
module Aggregations {
  import opened Js
  import opened Seqs
  import opened Documents

  // ---------------------------------------------------------------------
  // phonesAndClientData: $unwind telefonos, then $project

  datatype TelefonoCliente = TelefonoCliente(
    codigoArea: Num, nroTelefono: Num, tipo: string,
    nombre: string, apellido: string, direccion: string, activo: Num)

  /** What `$unwind` sees of a client's phones: a client without the field
      produces no document, like one with an empty array. */
  function PhonesOfClient(c: Cliente): seq<Telefono> {
    if c.telefonos.Some? then c.telefonos.value else []
  }

  function PhoneRow(c: Cliente, t: Telefono): TelefonoCliente {
    TelefonoCliente(t.codigoArea, t.nroTelefono, t.tipo, c.nombre, c.apellido, c.direccion, c.activo)
  }

  function PhonesAndClientData(cs: seq<Cliente>): seq<TelefonoCliente> {
    if cs == [] then []
    else Map(PhonesOfClient(cs[0]), (t: Telefono) => PhoneRow(cs[0], t)) + PhonesAndClientData(cs[1..])
  }

  function PhoneCount(cs: seq<Cliente>): nat {
    if cs == [] then 0 else |PhonesOfClient(cs[0])| + PhoneCount(cs[1..])
  }

  /** One document per phone of each client, and nothing else. */
  lemma {:induction false} PhonesAndClientDataSpec(cs: seq<Cliente>)
    ensures |PhonesAndClientData(cs)| == PhoneCount(cs)
    ensures forall y :: y in PhonesAndClientData(cs) <==>
      exists c, t :: c in cs && t in PhonesOfClient(c) && y == PhoneRow(c, t)
  {
    if cs != [] {
      PhonesAndClientDataSpec(cs[1..]);
      var c0 := cs[0];
      var head := Map(PhonesOfClient(c0), (t: Telefono) => PhoneRow(c0, t));
      assert forall c :: c in cs <==> c == c0 || c in cs[1..];
      forall y | y in head ensures exists c, t :: c in cs && t in PhonesOfClient(c) && y == PhoneRow(c, t) {
        var i :| 0 <= i < |head| && head[i] == y;
        assert PhonesOfClient(c0)[i] in PhonesOfClient(c0);
      }
      forall t | t in PhonesOfClient(c0) ensures PhoneRow(c0, t) in head {
        var i :| 0 <= i < |PhonesOfClient(c0)| && PhonesOfClient(c0)[i] == t;
        assert head[i] == PhoneRow(c0, t);
      }
    }
  }

  // ---------------------------------------------------------------------
  // clientsWithBills, clientsWithoutBills, clientsWithBillsCount

  datatype ClienteResumen = ClienteResumen(nroCliente: Num, nombre: string, apellido: string)

  function Resumen(c: Cliente): ClienteResumen {
    ClienteResumen(c.nroCliente, c.nombre, c.apellido)
  }

  /** The `$lookup` of a client's invoices. */
  function BillsOf(fs: seq<Factura>, n: Num): seq<Factura> {
    Filter(fs, (f: Factura) => f.nroCliente == n)
  }

  predicate HasBills(fs: seq<Factura>, n: Num) {
    exists f :: f in fs && f.nroCliente == n
  }

  lemma BillsOfEmpty(fs: seq<Factura>, n: Num)
    ensures BillsOf(fs, n) == [] <==> !HasBills(fs, n)
  {
    if BillsOf(fs, n) != [] {
      assert BillsOf(fs, n)[0] in BillsOf(fs, n);
    }
  }

  /** `"facturas.0": { $exists: true }`: the lookup is not empty. */
  function ClientsWithBills(cs: seq<Cliente>, fs: seq<Factura>): seq<ClienteResumen> {
    Map(Filter(cs, (c: Cliente) => BillsOf(fs, c.nroCliente) != []), Resumen)
  }

  /** `"facturas.0": { $exists: false }`: the lookup is empty. */
  function ClientsWithoutBills(cs: seq<Cliente>, fs: seq<Factura>): seq<ClienteResumen> {
    Map(Filter(cs, (c: Cliente) => BillsOf(fs, c.nroCliente) == []), Resumen)
  }

  /** The two queries split the clients: together they list each client's
      summary as often as the collection holds it, and a client is in the
      first exactly when some invoice carries its number. */
  lemma ClientsPartition(cs: seq<Cliente>, fs: seq<Factura>)
    ensures multiset(ClientsWithBills(cs, fs)) + multiset(ClientsWithoutBills(cs, fs)) == multiset(Map(cs, Resumen))
    ensures forall c :: c in cs ==> (Resumen(c) in ClientsWithBills(cs, fs) <==> HasBills(fs, c.nroCliente))
    ensures forall c :: c in cs ==> (Resumen(c) in ClientsWithoutBills(cs, fs) <==> !HasBills(fs, c.nroCliente))
  {
    var p := (c: Cliente) => BillsOf(fs, c.nroCliente) != [];
    var q := (c: Cliente) => BillsOf(fs, c.nroCliente) == [];
    MapFilterPartition(cs, p, q, Resumen);
    MapFilterMembership(cs, p, Resumen);
    MapFilterMembership(cs, q, Resumen);
    forall c | c in cs ensures BillsOf(fs, c.nroCliente) == [] <==> !HasBills(fs, c.nroCliente) {
      BillsOfEmpty(fs, c.nroCliente);
    }
    forall c, d | Resumen(c) == Resumen(d) ensures BillsOf(fs, c.nroCliente) == BillsOf(fs, d.nroCliente) {
      assert c.nroCliente == d.nroCliente;
    }
  }

  datatype ClienteConteo = ClienteConteo(nroCliente: Num, nombre: string, apellido: string, facturasCount: nat)

  /** `$size` of the lookup, per client. */
  function ClientsWithBillsCount(cs: seq<Cliente>, fs: seq<Factura>): seq<ClienteConteo> {
    Map(cs, (c: Cliente) => ClienteConteo(c.nroCliente, c.nombre, c.apellido, |BillsOf(fs, c.nroCliente)|))
  }

  function NroClienteOf(f: Factura): Num {
    f.nroCliente
  }

  /** The size of the lookup is how often the number occurs among the
      invoices' client numbers. */
  lemma {:induction false} BillsOfCount(fs: seq<Factura>, n: Num)
    ensures |BillsOf(fs, n)| == multiset(Map(fs, NroClienteOf))[n]
  {
    if fs != [] {
      BillsOfCount(fs[1..], n);
      assert fs == [fs[0]] + fs[1..];
      MapAppend([fs[0]], fs[1..], NroClienteOf);
    }
  }

  /** Every client once, in order, with the number of invoices that carry its
      number; 0 exactly when it has none. */
  lemma ClientsWithBillsCountSpec(cs: seq<Cliente>, fs: seq<Factura>)
    ensures |ClientsWithBillsCount(cs, fs)| == |cs|
    ensures forall i :: 0 <= i < |cs| ==>
      var r := ClientsWithBillsCount(cs, fs)[i];
      && r.nroCliente == cs[i].nroCliente && r.nombre == cs[i].nombre && r.apellido == cs[i].apellido
      && r.facturasCount == multiset(Map(fs, NroClienteOf))[cs[i].nroCliente]
      && (r.facturasCount == 0 <==> !HasBills(fs, cs[i].nroCliente))
  {
    forall i | 0 <= i < |cs|
      ensures |BillsOf(fs, cs[i].nroCliente)| == multiset(Map(fs, NroClienteOf))[cs[i].nroCliente]
      ensures BillsOf(fs, cs[i].nroCliente) == [] <==> !HasBills(fs, cs[i].nroCliente)
    {
      BillsOfCount(fs, cs[i].nroCliente);
      BillsOfEmpty(fs, cs[i].nroCliente);
    }
  }

  // ---------------------------------------------------------------------
  // clientsWithTotalSpent

  datatype Gasto = Gasto(nombre: string, apellido: string, totalGastado: Amount)

  function SumTotals(fs: seq<Factura>): Amount {
    if fs == [] then 0 else fs[0].totalConIva + SumTotals(fs[1..])
  }

  /** What one client's unwound documents add to its group: the totals of its
      invoices, or nothing for the single document of a client without any. */
  function Spent(fs: seq<Factura>, n: Num): Amount {
    SumTotals(BillsOf(fs, n))
  }

  /** `$sum` over the group of the key: every client with that
      (nro_cliente, nombre, apellido) adds what it spent. */
  function GroupTotal(cs: seq<Cliente>, fs: seq<Factura>, k: ClienteResumen): Amount {
    if cs == [] then 0
    else (if Resumen(cs[0]) == k then Spent(fs, cs[0].nroCliente) else 0) + GroupTotal(cs[1..], fs, k)
  }

  /** One line per distinct (nro_cliente, nombre, apellido), without the number. */
  function ClientsWithTotalSpent(cs: seq<Cliente>, fs: seq<Factura>): seq<Gasto> {
    Map(Distinct(Map(cs, Resumen)), (k: ClienteResumen) => Gasto(k.nombre, k.apellido, GroupTotal(cs, fs, k)))
  }

  /** How many clients share the key. */
  function KeyCount(cs: seq<Cliente>, k: ClienteResumen): nat {
    if cs == [] then 0 else (if Resumen(cs[0]) == k then 1 else 0) + KeyCount(cs[1..], k)
  }

  /** A group adds its client's spending once per client document with that key. */
  lemma {:induction false} GroupTotalIsMultiple(cs: seq<Cliente>, fs: seq<Factura>, k: ClienteResumen)
    ensures GroupTotal(cs, fs, k) == KeyCount(cs, k) * Spent(fs, k.nroCliente)
  {
    if cs != [] {
      GroupTotalIsMultiple(cs[1..], fs, k);
      if Resumen(cs[0]) == k {
        assert cs[0].nroCliente == k.nroCliente;
        var n, x := KeyCount(cs[1..], k), Spent(fs, k.nroCliente);
        assert (n + 1) * x == n * x + x;
      }
    }
  }

  lemma SpentWithoutBills(fs: seq<Factura>, n: Num)
    requires !HasBills(fs, n)
    ensures Spent(fs, n) == 0
  {
    BillsOfEmpty(fs, n);
  }

  /** Every client appears with what the clients of its key spent: its own
      spending once per client document with that key. */
  lemma ClientsWithTotalSpentCovers(cs: seq<Cliente>, fs: seq<Factura>)
    ensures forall c :: c in cs ==>
      Gasto(c.nombre, c.apellido, KeyCount(cs, Resumen(c)) * Spent(fs, c.nroCliente)) in ClientsWithTotalSpent(cs, fs)
  {
    var keys := Distinct(Map(cs, Resumen));
    var r := ClientsWithTotalSpent(cs, fs);
    forall c | c in cs
      ensures Gasto(c.nombre, c.apellido, KeyCount(cs, Resumen(c)) * Spent(fs, c.nroCliente)) in r
    {
      var i :| 0 <= i < |cs| && cs[i] == c;
      assert Map(cs, Resumen)[i] == Resumen(c);
      assert Map(cs, Resumen)[i] in Map(cs, Resumen);
      var j :| 0 <= j < |keys| && keys[j] == Resumen(c);
      GroupTotalIsMultiple(cs, fs, Resumen(c));
      assert r[j] == Gasto(c.nombre, c.apellido, GroupTotal(cs, fs, Resumen(c)));
    }
  }

  /** A client without invoices is listed with a total of exactly 0. */
  lemma ClientsWithTotalSpentZero(cs: seq<Cliente>, fs: seq<Factura>, c: Cliente)
    requires c in cs && !HasBills(fs, c.nroCliente)
    ensures Gasto(c.nombre, c.apellido, 0) in ClientsWithTotalSpent(cs, fs)
  {
    ClientsWithTotalSpentCovers(cs, fs);
    SpentWithoutBills(fs, c.nroCliente);
  }

  /** Every line names a client, and each key has one line. */
  lemma ClientsWithTotalSpentLines(cs: seq<Cliente>, fs: seq<Factura>)
    ensures forall y :: y in ClientsWithTotalSpent(cs, fs) ==> exists c :: c in cs && y.nombre == c.nombre && y.apellido == c.apellido
    ensures |ClientsWithTotalSpent(cs, fs)| == |Distinct(Map(cs, Resumen))|
  {
    var keys := Distinct(Map(cs, Resumen));
    var r := ClientsWithTotalSpent(cs, fs);
    forall y | y in r ensures exists c :: c in cs && y.nombre == c.nombre && y.apellido == c.apellido {
      var j :| 0 <= j < |r| && r[j] == y;
      assert keys[j] in keys;
      var i :| 0 <= i < |cs| && Map(cs, Resumen)[i] == keys[j];
      assert cs[i] in cs;
    }
  }

  // ---------------------------------------------------------------------
  // productsWithBills: $unwind detalles, $lookup productos, $unwind,
  // $group by code with $first, $sort ascending

  datatype ProductoResumen = ProductoResumen(codigoProducto: Num, nombreProducto: string, descripcionProducto: string, precioProducto: Amount)

  function ProductoSummary(p: Producto): ProductoResumen {
    ProductoResumen(p.codigoProducto, p.nombre, p.descripcion, p.precio)
  }

  function CodeOf(r: ProductoResumen): Num {
    r.codigoProducto
  }

  /** The `$lookup` of the products with a code. */
  function ProductsOfCode(ps: seq<Producto>, code: Num): seq<Producto> {
    Filter(ps, (p: Producto) => p.codigoProducto == code)
  }

  /** The documents after the second `$unwind`, for some line items. */
  function LineProductRows(ds: seq<Detalle>, ps: seq<Producto>): seq<ProductoResumen> {
    if ds == [] then []
    else Map(ProductsOfCode(ps, ds[0].codigoProducto), ProductoSummary) + LineProductRows(ds[1..], ps)
  }

  function BilledProductRows(fs: seq<Factura>, ps: seq<Producto>): seq<ProductoResumen> {
    if fs == [] then [] else LineProductRows(fs[0].detalles, ps) + BilledProductRows(fs[1..], ps)
  }

  function ProductsWithBills(fs: seq<Factura>, ps: seq<Producto>): seq<ProductoResumen> {
    GroupSort(BilledProductRows(fs, ps), CodeOf)
  }

  /** Some line item of some invoice has the code. */
  predicate Billed(fs: seq<Factura>, code: Num) {
    exists f, d :: f in fs && d in f.detalles && d.codigoProducto == code
  }

  lemma {:induction false} LineProductRowsMembership(ds: seq<Detalle>, ps: seq<Producto>)
    ensures forall y :: y in LineProductRows(ds, ps) <==>
      exists d, p :: d in ds && p in ps && p.codigoProducto == d.codigoProducto && y == ProductoSummary(p)
  {
    if ds != [] {
      LineProductRowsMembership(ds[1..], ps);
      MapFilterMembership(ps, (p: Producto) => p.codigoProducto == ds[0].codigoProducto, ProductoSummary);
      assert forall d :: d in ds <==> d == ds[0] || d in ds[1..];
    }
  }

  lemma {:induction false} BilledProductRowsMembership(fs: seq<Factura>, ps: seq<Producto>)
    ensures forall y :: y in BilledProductRows(fs, ps) <==>
      exists f, d, p :: f in fs && d in f.detalles && p in ps && p.codigoProducto == d.codigoProducto && y == ProductoSummary(p)
  {
    if fs != [] {
      BilledProductRowsMembership(fs[1..], ps);
      LineProductRowsMembership(fs[0].detalles, ps);
      assert forall f :: f in fs <==> f == fs[0] || f in fs[1..];
    }
  }

  /** Distinct codes in ascending order, exactly those of products that are
      in the collection and on some line item; each entry summarises a
      product with its code. */
  lemma ProductsWithBillsSpec(fs: seq<Factura>, ps: seq<Producto>)
    ensures StrictlyAscending(ProductsWithBills(fs, ps), CodeOf)
    ensures forall k :: HasKey(ProductsWithBills(fs, ps), CodeOf, k) <==>
      Billed(fs, k) && exists p :: p in ps && p.codigoProducto == k
    ensures forall y :: y in ProductsWithBills(fs, ps) ==> exists p :: p in ps && ProductoSummary(p) == y
  {
    var rows := BilledProductRows(fs, ps);
    BilledProductRowsMembership(fs, ps);
    GroupSortKeepsFirst(rows, CodeOf);
    forall k ensures HasKey(rows, CodeOf, k) <==> Billed(fs, k) && exists p :: p in ps && p.codigoProducto == k {
      if HasKey(rows, CodeOf, k) {
        var i :| 0 <= i < |rows| && CodeOf(rows[i]) == k;
        assert rows[i] in rows;
      }
      if Billed(fs, k) && exists p :: p in ps && p.codigoProducto == k {
        var f, d :| f in fs && d in f.detalles && d.codigoProducto == k;
        var p :| p in ps && p.codigoProducto == k;
        var y := ProductoSummary(p);
        assert y in rows;
        var i :| 0 <= i < |rows| && rows[i] == y;
        assert CodeOf(rows[i]) == k;
      }
    }
    forall y | y in ProductsWithBills(fs, ps) ensures exists p :: p in ps && ProductoSummary(p) == y {
      assert FirstOfItsKey(rows, CodeOf, y);
      var i :| 0 <= i < |rows| && rows[i] == y && forall j :: 0 <= j < i ==> CodeOf(rows[j]) != CodeOf(y);
      assert rows[i] in rows;
    }
  }

  // ---------------------------------------------------------------------
  // billsWithIpsumProducts: $unwind detalles, $lookup productos, $match on
  // the brands, $group by invoice number with $first, $sort ascending

  datatype FacturaResumen = FacturaResumen(nroFactura: Num, fecha: string, totalSinIva: Amount, iva: Amount, totalConIva: Amount, nroCliente: Num)

  function FacturaSummary(f: Factura): FacturaResumen {
    FacturaResumen(f.nroFactura, f.fecha, f.totalSinIva, f.iva, f.totalConIva, f.nroCliente)
  }

  function NroFacturaOf(r: FacturaResumen): Num {
    r.nroFactura
  }

  /** The `$match` of a line item: some product of its lookup has a brand
      containing "Ipsum" in any case. */
  predicate IpsumLine(d: Detalle, ps: seq<Producto>) {
    exists p :: p in ProductsOfCode(ps, d.codigoProducto) && IncludesIgnoringCase(p.marca, "Ipsum")
  }

  predicate HasIpsumLine(f: Factura, ps: seq<Producto>) {
    exists d :: d in f.detalles && IpsumLine(d, ps)
  }

  /** One document per matching line item of an invoice. */
  function IpsumLineRows(f: Factura, ds: seq<Detalle>, ps: seq<Producto>): seq<FacturaResumen> {
    if ds == [] then []
    else (if IpsumLine(ds[0], ps) then [FacturaSummary(f)] else []) + IpsumLineRows(f, ds[1..], ps)
  }

  function IpsumRows(fs: seq<Factura>, ps: seq<Producto>): seq<FacturaResumen> {
    if fs == [] then [] else IpsumLineRows(fs[0], fs[0].detalles, ps) + IpsumRows(fs[1..], ps)
  }

  function BillsWithIpsumProducts(fs: seq<Factura>, ps: seq<Producto>): seq<FacturaResumen> {
    GroupSort(IpsumRows(fs, ps), NroFacturaOf)
  }

  lemma {:induction false} IpsumLineRowsMembership(f: Factura, ds: seq<Detalle>, ps: seq<Producto>)
    ensures forall y :: y in IpsumLineRows(f, ds, ps) <==> y == FacturaSummary(f) && exists d :: d in ds && IpsumLine(d, ps)
  {
    if ds != [] {
      IpsumLineRowsMembership(f, ds[1..], ps);
      assert forall d :: d in ds <==> d == ds[0] || d in ds[1..];
    }
  }

  lemma {:induction false} IpsumRowsMembership(fs: seq<Factura>, ps: seq<Producto>)
    ensures forall y :: y in IpsumRows(fs, ps) <==> exists f :: f in fs && HasIpsumLine(f, ps) && y == FacturaSummary(f)
  {
    if fs != [] {
      IpsumRowsMembership(fs[1..], ps);
      IpsumLineRowsMembership(fs[0], fs[0].detalles, ps);
      assert forall f :: f in fs <==> f == fs[0] || f in fs[1..];
    }
  }

  /** Distinct invoice numbers in ascending order, exactly those of invoices
      with a line item whose product's brand contains "Ipsum" in any case;
      each entry is the summary of such an invoice. */
  lemma BillsWithIpsumProductsSpec(fs: seq<Factura>, ps: seq<Producto>)
    ensures StrictlyAscending(BillsWithIpsumProducts(fs, ps), NroFacturaOf)
    ensures forall k :: HasKey(BillsWithIpsumProducts(fs, ps), NroFacturaOf, k) <==>
      exists f :: f in fs && f.nroFactura == k && HasIpsumLine(f, ps)
    ensures forall y :: y in BillsWithIpsumProducts(fs, ps) ==> exists f :: f in fs && HasIpsumLine(f, ps) && FacturaSummary(f) == y
  {
    var rows := IpsumRows(fs, ps);
    IpsumRowsMembership(fs, ps);
    GroupSortKeepsFirst(rows, NroFacturaOf);
    forall k ensures HasKey(rows, NroFacturaOf, k) <==> exists f :: f in fs && f.nroFactura == k && HasIpsumLine(f, ps) {
      if HasKey(rows, NroFacturaOf, k) {
        var i :| 0 <= i < |rows| && NroFacturaOf(rows[i]) == k;
        assert rows[i] in rows;
      }
      if exists f :: f in fs && f.nroFactura == k && HasIpsumLine(f, ps) {
        var f :| f in fs && f.nroFactura == k && HasIpsumLine(f, ps);
        assert FacturaSummary(f) in rows;
        var i :| 0 <= i < |rows| && rows[i] == FacturaSummary(f);
        assert NroFacturaOf(rows[i]) == k;
      }
    }
    forall y | y in BillsWithIpsumProducts(fs, ps) ensures exists f :: f in fs && HasIpsumLine(f, ps) && FacturaSummary(f) == y {
      assert FirstOfItsKey(rows, NroFacturaOf, y);
      var i :| 0 <= i < |rows| && rows[i] == y && forall j :: 0 <= j < i ==> NroFacturaOf(rows[j]) != NroFacturaOf(y);
      assert rows[i] in rows;
    }
  }

  // ---------------------------------------------------------------------
  // The view facturas_ordenadas_por_fecha: $sort fecha ascending, $project

  /** MongoDB's order on strings: code point by code point, a prefix first. */
  predicate StringLe(a: string, b: string) {
    if a == [] then true
    else if b == [] then false
    else if a[0] != b[0] then a[0] < b[0]
    else StringLe(a[1..], b[1..])
  }

  lemma {:induction false} StringLeTotal(a: string, b: string)
    ensures StringLe(a, b) || StringLe(b, a)
  {
    if a != [] && b != [] && a[0] == b[0] {
      StringLeTotal(a[1..], b[1..]);
    }
  }

  lemma {:induction false} StringLeTransitive(a: string, b: string, c: string)
    requires StringLe(a, b) && StringLe(b, c)
    ensures StringLe(a, c)
  {
    if a != [] && b != [] && c != [] && a[0] == b[0] && b[0] == c[0] {
      StringLeTransitive(a[1..], b[1..], c[1..]);
    }
  }

  predicate SortedByDate(s: seq<FacturaResumen>) {
    forall i, j :: 0 <= i < j < |s| ==> StringLe(s[i].fecha, s[j].fecha)
  }

  function InsertByDate(x: FacturaResumen, s: seq<FacturaResumen>): (r: seq<FacturaResumen>)
    requires SortedByDate(s)
    ensures SortedByDate(r)
    ensures multiset(r) == multiset(s) + multiset{x}
  {
    if s == [] then [x]
    else if StringLe(x.fecha, s[0].fecha) then
      assert forall j :: 0 <= j < |s| ==> StringLe(x.fecha, s[j].fecha) by {
        forall j | 0 <= j < |s| ensures StringLe(x.fecha, s[j].fecha) {
          if j > 0 { StringLeTransitive(x.fecha, s[0].fecha, s[j].fecha); }
        }
      }
      assert forall j :: 1 <= j < |s| + 1 ==> ([x] + s)[j] == s[j - 1];
      [x] + s
    else
      StringLeTotal(x.fecha, s[0].fecha);
      var t := InsertByDate(x, s[1..]);
      assert s == [s[0]] + s[1..];
      assert forall y :: y in t ==> StringLe(s[0].fecha, y.fecha) by {
        forall y | y in t ensures StringLe(s[0].fecha, y.fecha) {
          assert y in multiset(t);
          if y != x {
            assert y in s[1..];
          }
        }
      }
      assert forall j :: 0 <= j < |t| ==> t[j] in t;
      [s[0]] + t
  }

  function SortByDate(s: seq<FacturaResumen>): (r: seq<FacturaResumen>)
    ensures SortedByDate(r)
    ensures multiset(r) == multiset(s)
  {
    if s == [] then []
    else
      assert s == s[..|s| - 1] + [s[|s| - 1]];
      InsertByDate(s[|s| - 1], SortByDate(s[..|s| - 1]))
  }

  /** The view: every invoice's summary, in ascending order of `fecha`. */
  function BillsOrderedByDate(fs: seq<Factura>): (r: seq<FacturaResumen>)
    ensures SortedByDate(r)
    ensures multiset(r) == multiset(Map(fs, FacturaSummary))
  {
    SortByDate(Map(fs, FacturaSummary))
  }

  // ---------------------------------------------------------------------
  // The view productos_no_facturados: $lookup through the line items,
  // $match on an empty lookup

  function ProductsNotBilled(fs: seq<Factura>, ps: seq<Producto>): seq<Producto> {
    Filter(ps, (p: Producto) => !Billed(fs, p.codigoProducto))
  }

  /** The view holds exactly the products whose code is not listed by
      `productsWithBills`, and with the billed products it makes up the
      whole collection. */
  lemma ProductsNotBilledSpec(fs: seq<Factura>, ps: seq<Producto>)
    ensures forall p :: p in ProductsNotBilled(fs, ps) <==>
      p in ps && !HasKey(ProductsWithBills(fs, ps), CodeOf, p.codigoProducto)
    ensures multiset(ProductsNotBilled(fs, ps)) + multiset(Filter(ps, (p: Producto) => Billed(fs, p.codigoProducto))) == multiset(ps)
  {
    ProductsWithBillsSpec(fs, ps);
    FilterPartition(ps, (p: Producto) => Billed(fs, p.codigoProducto), (p: Producto) => !Billed(fs, p.codigoProducto));
  }
}
