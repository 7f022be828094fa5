/** The documents of the three collections `clientes`, `facturas` and
    `productos`, as the loader builds them from the CSV files. */
module Documents {
  import opened Js
  import opened Seqs

  /** A decimal amount read with `parseFloat`. Amounts are kept abstract: the
      model sums them as integers and never reasons about rounding. */
  type Amount = int

  datatype Telefono = Telefono(codigoArea: Num, nroTelefono: Num, tipo: string)

  /** A client. `telefonos` is `None` for a document that has no such field,
      as the documents inserted by `createClient` have none. */
  datatype Cliente = Cliente(
    nroCliente: Num,
    nombre: string,
    apellido: string,
    direccion: string,
    activo: Num,
    telefonos: Option<seq<Telefono>>)

  /** A line item of an invoice: exactly these three fields. */
  datatype Detalle = Detalle(codigoProducto: Num, nroItem: Num, cantidad: Amount)

  datatype Factura = Factura(
    nroFactura: Num,
    fecha: string,
    totalSinIva: Amount,
    iva: Amount,
    totalConIva: Amount,
    nroCliente: Num,
    detalles: seq<Detalle>)

  datatype Producto = Producto(
    codigoProducto: Num,
    marca: string,
    nombre: string,
    descripcion: string,
    precio: Amount,
    stock: Num)
}
