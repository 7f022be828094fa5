/** Building the documents from the rows of the CSV files, and the
    per-phone cache writer `insertClientRedis`. Every column of a row is text,
    as the CSV reader delivers it. */
module Ingest {
  import opened Js
  import opened Seqs
  import opened Documents
  import opened Cache

  datatype FacturaRow = FacturaRow(nroFactura: string, fecha: string, totalSinIva: string, iva: string, totalConIva: string, nroCliente: string)
  datatype DetalleRow = DetalleRow(nroFactura: string, codigoProducto: string, nroItem: string, cantidad: string)
  datatype ClienteRow = ClienteRow(nroCliente: string, nombre: string, apellido: string, direccion: string, activo: string)
  datatype TelefonoRow = TelefonoRow(codigoArea: string, nroTelefono: string, tipo: string, nroCliente: string)
  datatype ProductoRow = ProductoRow(codigoProducto: string, marca: string, nombre: string, descripcion: string, precio: string, stock: string)

  /** `parseFloat`, whose rounding the model does not describe, is a parameter. */
  type ParseFloat = string -> Amount

  function MapDetalle(d: DetalleRow, parseFloat: ParseFloat): Detalle {
    Detalle(ParseInt(d.codigoProducto), ParseInt(d.nroItem), parseFloat(d.cantidad))
  }

  /** The line rows of an invoice row: those with the same `nro_factura`
      text, compared as text and not as numbers. */
  function LinesOf(row: FacturaRow, detalles: seq<DetalleRow>): seq<DetalleRow> {
    Filter(detalles, (d: DetalleRow) => d.nroFactura == row.nroFactura)
  }

  function MapFactura(row: FacturaRow, detalles: seq<DetalleRow>, parseFloat: ParseFloat): Factura {
    Factura(
      ParseInt(row.nroFactura), row.fecha,
      parseFloat(row.totalSinIva), parseFloat(row.iva), parseFloat(row.totalConIva),
      ParseInt(row.nroCliente),
      Map(LinesOf(row, detalles), (d: DetalleRow) => MapDetalle(d, parseFloat)))
  }

  /** `generateFacturas`: one invoice per invoice row, in file order, each
      with the line items whose `nro_factura` text is the invoice row's. */
  function GenerateFacturas(rows: seq<FacturaRow>, detalles: seq<DetalleRow>, parseFloat: ParseFloat): (r: seq<Factura>)
    ensures |r| == |rows|
    ensures forall i :: 0 <= i < |rows| ==>
      && r[i].nroFactura == ParseInt(rows[i].nroFactura)
      && r[i].fecha == rows[i].fecha
      && r[i].totalSinIva == parseFloat(rows[i].totalSinIva)
      && r[i].iva == parseFloat(rows[i].iva)
      && r[i].totalConIva == parseFloat(rows[i].totalConIva)
      && r[i].nroCliente == ParseInt(rows[i].nroCliente)
  {
    Map(rows, (row: FacturaRow) => MapFactura(row, detalles, parseFloat))
  }

  /** The line items of each invoice are exactly the images of the line rows
      that carry its `nro_factura` text, as many as there are such rows. */
  lemma GenerateFacturasLines(rows: seq<FacturaRow>, detalles: seq<DetalleRow>, parseFloat: ParseFloat, i: int)
    requires 0 <= i < |rows|
    ensures forall x :: x in GenerateFacturas(rows, detalles, parseFloat)[i].detalles <==>
      exists d :: d in detalles && d.nroFactura == rows[i].nroFactura && MapDetalle(d, parseFloat) == x
    ensures |GenerateFacturas(rows, detalles, parseFloat)[i].detalles| == |LinesOf(rows[i], detalles)|
    ensures IsSubsequence(GenerateFacturas(rows, detalles, parseFloat)[i].detalles, Map(detalles, (d: DetalleRow) => MapDetalle(d, parseFloat)))
    ensures multiset(GenerateFacturas(rows, detalles, parseFloat)[i].detalles) == multiset(Map(LinesOf(rows[i], detalles), (d: DetalleRow) => MapDetalle(d, parseFloat)))
    ensures GenerateFacturas(rows, detalles, parseFloat)[i].detalles == Map(LinesOf(rows[i], detalles), (d: DetalleRow) => MapDetalle(d, parseFloat))
    // The rows mapped, before mapping: in file order, all carrying the
    // invoice's text, and every row carrying it, as often as it occurs.
    ensures IsSubsequence(LinesOf(rows[i], detalles), detalles)
    ensures forall d :: d in LinesOf(rows[i], detalles) ==> d.nroFactura == rows[i].nroFactura
    ensures forall d: DetalleRow :: d.nroFactura == rows[i].nroFactura ==> multiset(LinesOf(rows[i], detalles))[d] == multiset(detalles)[d]
  {
    var p := (d: DetalleRow) => d.nroFactura == rows[i].nroFactura;
    var f := (d: DetalleRow) => MapDetalle(d, parseFloat);
    MapFilterMembership(detalles, p, f);
    FilterSpec(detalles, p);
    MapSubsequence(Filter(detalles, p), detalles, f);
  }

  /** Loading two files one after the other gives the invoices of each, in turn. */
  lemma GenerateFacturasAppend(a: seq<FacturaRow>, b: seq<FacturaRow>, detalles: seq<DetalleRow>, parseFloat: ParseFloat)
    ensures GenerateFacturas(a + b, detalles, parseFloat) == GenerateFacturas(a, detalles, parseFloat) + GenerateFacturas(b, detalles, parseFloat)
  {
  }

  /** Line rows are matched as text: the row `"07"` is not a line of the
      invoice `"7"`, although both numbers read as 7. */
  lemma LinesMatchAsText(parseFloat: ParseFloat)
    ensures var r := GenerateFacturas([FacturaRow("7", "", "", "", "", "1")], [DetalleRow("07", "1", "1", "1")], parseFloat);
      r[0].nroFactura == Int(7) && r[0].detalles == []
  {
    var row := FacturaRow("7", "", "", "", "", "1");
    var lines := [DetalleRow("07", "1", "1", "1")];
    assert NumText(Int(7)) == "7";
    ParseIntNumText(Int(7));
    assert LinesOf(row, lines) == [];
    assert GenerateFacturas([row], lines, parseFloat)[0] == MapFactura(row, lines, parseFloat);
  }

  function MapTelefono(t: TelefonoRow): Telefono {
    Telefono(ParseInt(t.codigoArea), ParseInt(t.nroTelefono), t.tipo)
  }

  /** The phone rows of a client row: `parseInt` of their `nro_cliente`
      `===` `parseInt` of the client's. */
  function PhonesOf(row: ClienteRow, telefonos: seq<TelefonoRow>): seq<TelefonoRow> {
    Filter(telefonos, (t: TelefonoRow) => StrictEquals(ParseInt(t.nroCliente), ParseInt(row.nroCliente)))
  }

  function MapCliente(row: ClienteRow, telefonos: seq<TelefonoRow>): Cliente {
    Cliente(
      ParseInt(row.nroCliente), row.nombre, row.apellido, row.direccion, ParseInt(row.activo),
      Some(Map(PhonesOf(row, telefonos), MapTelefono)))
  }

  /** `generateClientes`: one client per client row, in file order, each with
      a `telefonos` array. */
  function GenerateClientes(rows: seq<ClienteRow>, telefonos: seq<TelefonoRow>): (r: seq<Cliente>)
    ensures |r| == |rows|
    ensures forall i :: 0 <= i < |rows| ==>
      && r[i].nroCliente == ParseInt(rows[i].nroCliente)
      && r[i].nombre == rows[i].nombre
      && r[i].apellido == rows[i].apellido
      && r[i].direccion == rows[i].direccion
      && r[i].activo == ParseInt(rows[i].activo)
      && r[i].telefonos.Some?
  {
    Map(rows, (row: ClienteRow) => MapCliente(row, telefonos))
  }

  /** The phones of each client are exactly the images of the phone rows whose
      parsed `nro_cliente` is the client's parsed number, as many as there are
      such rows; a client whose number does not parse has none, since NaN is
      `===` to nothing. */
  lemma GenerateClientesPhones(rows: seq<ClienteRow>, telefonos: seq<TelefonoRow>, i: int)
    requires 0 <= i < |rows|
    ensures forall x :: x in GenerateClientes(rows, telefonos)[i].telefonos.value <==>
      exists t :: t in telefonos && ParseInt(t.nroCliente).Int? && ParseInt(t.nroCliente) == ParseInt(rows[i].nroCliente) && MapTelefono(t) == x
    ensures |GenerateClientes(rows, telefonos)[i].telefonos.value| == |PhonesOf(rows[i], telefonos)|
    ensures GenerateClientes(rows, telefonos)[i].nroCliente == NaN ==> GenerateClientes(rows, telefonos)[i].telefonos == Some([])
  {
    var p := (t: TelefonoRow) => StrictEquals(ParseInt(t.nroCliente), ParseInt(rows[i].nroCliente));
    MapFilterMembership(telefonos, p, MapTelefono);
    if ParseInt(rows[i].nroCliente) == NaN && Filter(telefonos, p) != [] {
      assert Filter(telefonos, p)[0] in Filter(telefonos, p);
    }
  }

  /** Each client's phones keep the order of the phone file, one phone per
      matching phone row. */
  lemma GenerateClientesPhonesOrder(rows: seq<ClienteRow>, telefonos: seq<TelefonoRow>, i: int)
    requires 0 <= i < |rows|
    ensures IsSubsequence(GenerateClientes(rows, telefonos)[i].telefonos.value, Map(telefonos, MapTelefono))
    ensures multiset(GenerateClientes(rows, telefonos)[i].telefonos.value) == multiset(Map(PhonesOf(rows[i], telefonos), MapTelefono))
    ensures GenerateClientes(rows, telefonos)[i].telefonos.value == Map(PhonesOf(rows[i], telefonos), MapTelefono)
    // The rows mapped, before mapping: in file order, all of this client's,
    // and every row of this client, as often as it occurs.
    ensures IsSubsequence(PhonesOf(rows[i], telefonos), telefonos)
    ensures forall t :: t in PhonesOf(rows[i], telefonos) ==> StrictEquals(ParseInt(t.nroCliente), ParseInt(rows[i].nroCliente))
    ensures forall t: TelefonoRow :: StrictEquals(ParseInt(t.nroCliente), ParseInt(rows[i].nroCliente)) ==>
      multiset(PhonesOf(rows[i], telefonos))[t] == multiset(telefonos)[t]
  {
    var p := (t: TelefonoRow) => StrictEquals(ParseInt(t.nroCliente), ParseInt(rows[i].nroCliente));
    assert GenerateClientes(rows, telefonos)[i].telefonos.value == Map(Filter(telefonos, p), MapTelefono);
    FilterSpec(telefonos, p);
    MapSubsequence(Filter(telefonos, p), telefonos, MapTelefono);
  }

  /** Phone rows are matched by parsed number, so a phone row whose
      `nro_cliente` is written differently from the client's, as `"07"` for
      `"7"` (see `JoinsOnLeadingZero`), is still one of its phones. */
  lemma PhonesMatchAsNumbers(row: ClienteRow, t: TelefonoRow)
    requires ParseInt(t.nroCliente) == ParseInt(row.nroCliente) != NaN
    ensures PhonesOf(row, [t]) == [t]
  {
    assert [t][1..] == [];
  }

  /** The two joins disagree on leading zeros: a detail row whose
      `nro_factura` is `"0" + s` is no line of invoice `s`, while a phone row
      whose `nro_cliente` is `"0" + s` is a phone of client `s`. */
  lemma JoinsOnLeadingZero(s: string, factura: FacturaRow, d: DetalleRow, cliente: ClienteRow, t: TelefonoRow)
    requires s != [] && forall i :: 0 <= i < |s| ==> '0' <= s[i] <= '9'
    requires factura.nroFactura == s && d.nroFactura == "0" + s
    requires cliente.nroCliente == s && t.nroCliente == "0" + s
    ensures ParseInt(d.nroFactura) == ParseInt(factura.nroFactura)
    ensures LinesOf(factura, [d]) == []
    ensures PhonesOf(cliente, [t]) == [t]
  {
    ParseIntLeadingZero(s);
    ParseIntDigits(s);
    PhonesMatchAsNumbers(cliente, t);
    assert |d.nroFactura| != |factura.nroFactura|;
    assert [d][1..] == [];
  }

  lemma GenerateClientesAppend(a: seq<ClienteRow>, b: seq<ClienteRow>, telefonos: seq<TelefonoRow>)
    ensures GenerateClientes(a + b, telefonos) == GenerateClientes(a, telefonos) + GenerateClientes(b, telefonos)
  {
  }

  function MapProducto(row: ProductoRow, parseFloat: ParseFloat): Producto {
    Producto(ParseInt(row.codigoProducto), row.marca, row.nombre, row.descripcion, parseFloat(row.precio), ParseInt(row.stock))
  }

  /** `generateProductos`: one product per product row, in file order. */
  function GenerateProductos(rows: seq<ProductoRow>, parseFloat: ParseFloat): (r: seq<Producto>)
    ensures |r| == |rows|
    ensures forall i :: 0 <= i < |rows| ==>
      && r[i].codigoProducto == ParseInt(rows[i].codigoProducto)
      && r[i].marca == rows[i].marca
      && r[i].nombre == rows[i].nombre
      && r[i].descripcion == rows[i].descripcion
      && r[i].precio == parseFloat(rows[i].precio)
      && r[i].stock == ParseInt(rows[i].stock)
  {
    Map(rows, (row: ProductoRow) => MapProducto(row, parseFloat))
  }

  lemma GenerateProductosAppend(a: seq<ProductoRow>, b: seq<ProductoRow>, parseFloat: ParseFloat)
    ensures GenerateProductos(a + b, parseFloat) == GenerateProductos(a, parseFloat) + GenerateProductos(b, parseFloat)
  {
  }

  // ---------------------------------------------------------------------
  // insertClientRedis

  /** The hash fields of a client copy whose `telefonos` was deleted; the
      Redis client sends numbers as their text. */
  function ClienteFields(c: Cliente): map<string, string> {
    map["nro_cliente" := NumText(c.nroCliente), "nombre" := c.nombre, "apellido" := c.apellido,
        "direccion" := c.direccion, "activo" := NumText(c.activo)]
  }

  function TelefonoFields(t: Telefono): map<string, string> {
    map["codigo_area" := NumText(t.codigoArea), "nro_telefono" := NumText(t.nroTelefono), "tipo" := t.tipo]
  }

  /** The hash under `k` holds at least the given fields with these values. */
  predicate HoldsFields(m: map<string, Value>, k: string, fields: map<string, string>) {
    k in m && m[k].Hash? && forall f :: f in fields ==> f in m[k].fields && m[k].fields[f] == fields[f]
  }

  /** A cache after some writes, and whether all of them succeeded. */
  datatype Written = Written(entries: map<string, Value>, ok: bool)

  /** The loop over `telefonos.entries()`: one `HSET` per phone, in order; the
      first WRONGTYPE error ends the loop. */
  function WritePhones(m: map<string, Value>, n: Num, ts: seq<Telefono>): Written {
    if ts == [] then Written(m, true)
    else
      var w := WritePhones(m, n, ts[..|ts| - 1]);
      if !w.ok then w
      else match HSetResult(w.entries, PhoneKey(n, |ts| - 1), TelefonoFields(ts[|ts| - 1]))
        case None => Written(w.entries, false)
        case Some(e) => Written(e, true)
  }

  /** The phone key of index `i` did not hold a string before the loop. */
  predicate PhoneSlotFree(m: map<string, Value>, n: Num, i: nat) {
    PhoneKey(n, i) !in m || m[PhoneKey(n, i)].Hash?
  }

  /** The loop changes only phone keys of the client, never a key holding a
      string, and keeps every name key holding a number. */
  lemma {:induction false} WritePhonesFrame(m: map<string, Value>, n: Num, ts: seq<Telefono>)
    ensures forall k :: (forall i :: 0 <= i < |ts| ==> k != PhoneKey(n, i)) ==> Entry(WritePhones(m, n, ts).entries, k) == Entry(m, k)
    ensures forall k :: k in m && !m[k].Hash? ==> Entry(WritePhones(m, n, ts).entries, k) == Entry(m, k)
    ensures NameSlotsHoldIds(m) ==> NameSlotsHoldIds(WritePhones(m, n, ts).entries)
  {
    if ts != [] {
      WritePhonesFrame(m, n, ts[..|ts| - 1]);
      PhoneKeyNotNameSlot(n, |ts| - 1);
    }
  }

  /** The phone keys of one client are pairwise different. */
  lemma PhoneKeysDistinct(n: Num, i: nat, j: nat)
    requires i != j
    ensures PhoneKey(n, i) != PhoneKey(n, j)
  {
    if PhoneKey(n, i) == PhoneKey(n, j) {
      PhoneKeyInjective(n, i, n, j);
    }
  }

  /** The loop finishes exactly when no phone key held a string. */
  lemma {:induction false} WritePhonesOk(m: map<string, Value>, n: Num, ts: seq<Telefono>)
    ensures WritePhones(m, n, ts).ok <==> forall i :: 0 <= i < |ts| ==> PhoneSlotFree(m, n, i)
  {
    if ts != [] {
      var p := ts[..|ts| - 1];
      var j := |ts| - 1;
      WritePhonesOk(m, n, p);
      WritePhonesFrame(m, n, p);
      forall i | 0 <= i < |p| ensures PhoneKey(n, i) != PhoneKey(n, j) {
        PhoneKeysDistinct(n, i, j);
      }
      var w := WritePhones(m, n, p);
      assert Entry(w.entries, PhoneKey(n, j)) == Entry(m, PhoneKey(n, j));
      assert w.ok ==> (WritePhones(m, n, ts).ok <==> PhoneSlotFree(m, n, j));
    }
  }

  /** When the loop finishes, the hash of the i-th phone holds its fields
      under the key of index i. */
  lemma {:induction false} WritePhonesStores(m: map<string, Value>, n: Num, ts: seq<Telefono>)
    ensures WritePhones(m, n, ts).ok ==>
      forall i :: 0 <= i < |ts| ==> HoldsFields(WritePhones(m, n, ts).entries, PhoneKey(n, i), TelefonoFields(ts[i]))
  {
    if ts != [] {
      var p := ts[..|ts| - 1];
      var j := |ts| - 1;
      var w := WritePhones(m, n, p);
      WritePhonesStores(m, n, p);
      if WritePhones(m, n, ts).ok {
        assert w.ok;
        var e := HSetResult(w.entries, PhoneKey(n, j), TelefonoFields(ts[j])).value;
        assert WritePhones(m, n, ts).entries == e;
        forall i | 0 <= i < |ts| ensures HoldsFields(e, PhoneKey(n, i), TelefonoFields(ts[i])) {
          if i == j {
            assert HoldsFields(e, PhoneKey(n, j), TelefonoFields(ts[j]));
          } else {
            PhoneKeysDistinct(n, i, j);
            assert ts[i] == p[i];
            assert Entry(e, PhoneKey(n, i)) == Entry(w.entries, PhoneKey(n, i));
          }
        }
      }
    }
  }

  /** After a failure at phone `j`, no later phone key is written. */
  lemma {:induction false} WritePhonesStopsAtFailure(m: map<string, Value>, n: Num, ts: seq<Telefono>, j: nat)
    requires j < |ts| && !PhoneSlotFree(m, n, j)
    ensures !WritePhones(m, n, ts).ok
    ensures forall i :: j < i < |ts| ==> Entry(WritePhones(m, n, ts).entries, PhoneKey(n, i)) == Entry(m, PhoneKey(n, i))
  {
    WritePhonesOk(m, n, ts);
    if j < |ts| - 1 {
      var p := ts[..|ts| - 1];
      WritePhonesStopsAtFailure(m, n, p, j);
      WritePhonesFrame(m, n, p);
      forall i | 0 <= i < |p| ensures PhoneKey(n, i) != PhoneKey(n, |ts| - 1) {
        PhoneKeysDistinct(n, i, |ts| - 1);
      }
    }
  }

  /** The cache writes of `insertClientRedis`: set the name key without
      `names:`, and when the record key is absent, the record hash without
      `telefonos`, then one hash per phone. A client with no `telefonos`
      field throws on `telefonos.entries()` after the record hash. */
  function InsertClientEffect(m: map<string, Value>, c: Cliente): Written {
    var m1 := m[LegacyNameKey(c.nombre, c.apellido) := Id(c.nroCliente)];
    if IdKey(c.nroCliente) in m1 then Written(m1, true)
    else
      var m2 := m1[IdKey(c.nroCliente) := Hash(ClienteFields(c))];
      match c.telefonos
      case None => Written(m2, false)
      case Some(ts) => WritePhones(m2, c.nroCliente, ts)
  }

  datatype Outcome = Done | Threw

  method InsertClientRedis(c: Cliente, redis: Redis) returns (outcome: Outcome)
    modifies redis
    ensures redis.entries == InsertClientEffect(old(redis.entries), c).entries
    ensures outcome == Done <==> InsertClientEffect(old(redis.entries), c).ok
  {
    var keyId := LegacyNameKey(c.nombre, c.apellido);
    var keyClient := IdKey(c.nroCliente);
    redis.Set(keyId, Id(c.nroCliente));
    var present := redis.Exists(keyClient);
    if present {
      return Done;
    }
    ghost var m2 := redis.entries[keyClient := Hash(ClienteFields(c))];
    var stored := redis.HSet(keyClient, ClienteFields(c));
    assert stored && redis.entries == m2;
    if c.telefonos.None? {
      return Threw;
    }
    var telefonos := c.telefonos.value;
    var index := 0;
    while index < |telefonos|
      invariant 0 <= index <= |telefonos|
      invariant WritePhones(m2, c.nroCliente, telefonos[..index]) == Written(redis.entries, true)
    {
      var ok := redis.HSet(PhoneKey(c.nroCliente, index), TelefonoFields(telefonos[index]));
      assert telefonos[..index + 1][..index] == telefonos[..index];
      if !ok {
        assert WritePhones(m2, c.nroCliente, telefonos[..index + 1]) == Written(redis.entries, false);
        WritePhonesTail(m2, c.nroCliente, telefonos, index + 1);
        return Threw;
      }
      index := index + 1;
    }
    assert telefonos[..index] == telefonos;
    outcome := Done;
  }

  /** Once the loop has failed, the remaining phones change nothing. */
  lemma {:induction false} WritePhonesTail(m: map<string, Value>, n: Num, ts: seq<Telefono>, k: nat)
    requires k <= |ts| && !WritePhones(m, n, ts[..k]).ok
    ensures WritePhones(m, n, ts) == WritePhones(m, n, ts[..k])
  {
    if k < |ts| {
      assert ts[..|ts| - 1][..k] == ts[..k];
      WritePhonesTail(m, n, ts[..|ts| - 1], k);
    } else {
      assert ts[..k] == ts;
    }
  }

  /** `insertClientRedis` always leaves the client's number under
      `clientes:<nombre><apellido>`: no later `HSET` can replace a string. */
  lemma InsertClientSetsLegacyKey(m: map<string, Value>, c: Cliente)
    ensures Entry(InsertClientEffect(m, c).entries, LegacyNameKey(c.nombre, c.apellido)) == Some(Id(c.nroCliente))
  {
    var m1 := m[LegacyNameKey(c.nombre, c.apellido) := Id(c.nroCliente)];
    if IdKey(c.nroCliente) !in m1 && c.telefonos.Some? {
      WritePhonesFrame(m1[IdKey(c.nroCliente) := Hash(ClienteFields(c))], c.nroCliente, c.telefonos.value);
    }
  }

  /** When the record key already exists, nothing but the name key is written. */
  lemma InsertClientExisting(m: map<string, Value>, c: Cliente)
    requires IdKey(c.nroCliente) in m
    ensures InsertClientEffect(m, c) == Written(m[LegacyNameKey(c.nombre, c.apellido) := Id(c.nroCliente)], true)
  {
  }

  /** When the record key is new, it holds exactly the fields of the client
      but `telefonos`; the call finishes exactly when the client has phones
      and none of their keys held a string, and then the i-th phone's fields
      are under `clientes:<nro>:telefonos:<i>`. Nothing else changes, and
      name keys keep holding numbers. */
  lemma InsertClientFresh(m: map<string, Value>, c: Cliente)
    requires IdKey(c.nroCliente) !in m && IdKey(c.nroCliente) != LegacyNameKey(c.nombre, c.apellido)
    ensures var w := InsertClientEffect(m, c);
      && Entry(w.entries, IdKey(c.nroCliente)) == Some(Hash(ClienteFields(c)))
      && "telefonos" !in ClienteFields(c)
      && (w.ok <==> c.telefonos.Some? && forall i :: 0 <= i < |c.telefonos.value| ==>
            PhoneSlotFree(m, c.nroCliente, i) && PhoneKey(c.nroCliente, i) != LegacyNameKey(c.nombre, c.apellido))
      && (w.ok ==> forall i :: 0 <= i < |c.telefonos.value| ==>
            HoldsFields(w.entries, PhoneKey(c.nroCliente, i), TelefonoFields(c.telefonos.value[i])))
  {
    var n := c.nroCliente;
    var m1 := m[LegacyNameKey(c.nombre, c.apellido) := Id(n)];
    var m2 := m1[IdKey(n) := Hash(ClienteFields(c))];
    if c.telefonos.Some? {
      var ts := c.telefonos.value;
      WritePhonesFrame(m2, n, ts);
      WritePhonesOk(m2, n, ts);
      WritePhonesStores(m2, n, ts);
      forall i | 0 <= i < |ts| ensures PhoneKey(n, i) != IdKey(n) {
        PhoneKeyNotIdKey(n, i, n);
      }
      forall i | 0 <= i < |ts| ensures PhoneSlotFree(m2, n, i) <==>
        PhoneSlotFree(m, n, i) && PhoneKey(n, i) != LegacyNameKey(c.nombre, c.apellido)
      {
        PhoneKeyNotIdKey(n, i, n);
      }
    }
  }

  lemma InsertClientFrame(m: map<string, Value>, c: Cliente)
    ensures forall k ::
      (&& k != LegacyNameKey(c.nombre, c.apellido) && k != IdKey(c.nroCliente)
       && (c.telefonos.Some? ==> forall i :: 0 <= i < |c.telefonos.value| ==> k != PhoneKey(c.nroCliente, i)))
      ==> Entry(InsertClientEffect(m, c).entries, k) == Entry(m, k)
    ensures NameSlotsHoldIds(m) ==> NameSlotsHoldIds(InsertClientEffect(m, c).entries)
  {
    var n := c.nroCliente;
    var m1 := m[LegacyNameKey(c.nombre, c.apellido) := Id(n)];
    var m2 := m1[IdKey(n) := Hash(ClienteFields(c))];
    IdKeyNotNameSlot(n);
    if c.telefonos.Some? {
      WritePhonesFrame(m2, n, c.telefonos.value);
    }
  }
}
