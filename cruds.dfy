/** The pure parts of the interactive client and product operations: the
    text validators of the prompts, the label shown for each record, the
    choices of the pick-list and the filter that narrows it while typing. */
module Cruds {
  import opened Js
  import opened Seqs
  import opened Documents

  /** The validator of every text prompt: the value is accepted when it is
      not empty once trimmed. */
  predicate Validate(value: string) {
    Trim(value) != ""
  }

  /** A value is accepted exactly when some character of it is not white space. */
  lemma ValidateIff(value: string)
    ensures Validate(value) <==> exists i :: 0 <= i < |value| && !IsSpace(value[i])
  {
    TrimEmptyIff(value);
  }

  /** A record with the label it is listed under, `nombre_completo`. */
  datatype Labelled<T> = Labelled(record: T, nombreCompleto: string)

  /** A client is listed as its first name, a space and its last name. */
  function ClientLabel(c: Cliente): (r: string)
    ensures |r| == |c.nombre| + 1 + |c.apellido|
    ensures r[..|c.nombre|] == c.nombre && r[|c.nombre|] == ' ' && r[|c.nombre| + 1..] == c.apellido
  {
    c.nombre + " " + c.apellido
  }

  /** A product is listed as its brand followed by its name in parentheses. */
  function ProductLabel(p: Producto): (r: string)
    ensures |r| == |p.marca| + |p.nombre| + 3
    ensures r[..|p.marca|] == p.marca && r[|p.marca|..|p.marca| + 2] == " ("
    ensures r[|p.marca| + 2..|r| - 1] == p.nombre && r[|r| - 1] == ')'
  {
    p.marca + " (" + p.nombre + ")"
  }

  /** A client label determines the names when the first name has no space;
      otherwise `Ana Maria` `Paz` and `Ana` `Maria Paz` would share a label. */
  lemma ClientLabelDeterminesNames(c: Cliente, d: Cliente)
    requires ' ' !in c.nombre && ' ' !in d.nombre
    requires ClientLabel(c) == ClientLabel(d)
    ensures c.nombre == d.nombre && c.apellido == d.apellido
  {
    var l := ClientLabel(c);
    assert forall i :: 0 <= i < |c.nombre| ==> l[i] == c.nombre[i] && l[i] != ' ';
    assert forall i :: 0 <= i < |d.nombre| ==> l[i] == d.nombre[i] && l[i] != ' ';
    assert l[|c.nombre|] == ' ' && l[|d.nombre|] == ' ';
    assert |c.nombre| == |d.nombre|;
  }

  /** A product label determines the brand and name when the brand has no
      opening parenthesis. */
  lemma ProductLabelDeterminesNames(p: Producto, q: Producto)
    requires '(' !in p.marca && '(' !in q.marca
    requires ProductLabel(p) == ProductLabel(q)
    ensures p.marca == q.marca && p.nombre == q.nombre
  {
    var l := ProductLabel(p);
    assert forall i :: 0 <= i < |p.marca| ==> l[i] == p.marca[i] && l[i] != '(';
    assert forall i :: 0 <= i < |q.marca| ==> l[i] == q.marca[i] && l[i] != '(';
    assert l[|p.marca| + 1] == '(' && l[|q.marca| + 1] == '(';
    assert l[|p.marca|] == ' ' && l[|q.marca|] == ' ';
    assert |p.marca| == |q.marca|;
  }

  /** Adding `nombre_completo` to every record. */
  function LabelClients(cs: seq<Cliente>): (r: seq<Labelled<Cliente>>)
    ensures |r| == |cs|
    ensures forall i :: 0 <= i < |cs| ==> r[i].record == cs[i] && r[i].nombreCompleto == ClientLabel(cs[i])
  {
    Map(cs, (c: Cliente) => Labelled(c, ClientLabel(c)))
  }

  function LabelProducts(ps: seq<Producto>): (r: seq<Labelled<Producto>>)
    ensures |r| == |ps|
    ensures forall i :: 0 <= i < |ps| ==> r[i].record == ps[i] && r[i].nombreCompleto == ProductLabel(ps[i])
  {
    Map(ps, (p: Producto) => Labelled(p, ProductLabel(p)))
  }

  /** An entry of the pick-list: the text shown, the value returned and the
      line of detail under it. */
  datatype Choice<T> = Choice(name: string, value: Labelled<T>, description: string)

  /** The mapper of the client pick-lists: the address is the detail. */
  function ClientChoice(l: Labelled<Cliente>): Choice<Cliente> {
    Choice(l.nombreCompleto, l, l.record.direccion)
  }

  /** The mapper of the product pick-list: the description is the detail. */
  function ProductChoice(l: Labelled<Producto>): Choice<Producto> {
    Choice(l.nombreCompleto, l, l.record.descripcion)
  }

  /** The entry's label contains what was typed, ignoring case. */
  function Matches<T>(input: string): Labelled<T> -> bool {
    (e: Labelled<T>) => IncludesIgnoringCase(e.nombreCompleto, input)
  }

  /** The `source` of a pick-list: with nothing typed, every entry; otherwise
      the entries whose label contains the text, ignoring case; then mapped. */
  function Source<T(==,!new)>(entries: seq<Labelled<T>>, input: string, mapper: Labelled<T> -> Choice<T>): seq<Choice<T>> {
    if input == "" then Map(entries, mapper)
    else Map(Filter(entries, Matches(input)), mapper)
  }

  /** With nothing typed, the list shows every entry, in order. */
  lemma SourceEmptyInput<T(!new)>(entries: seq<Labelled<T>>, mapper: Labelled<T> -> Choice<T>)
    ensures |Source(entries, "", mapper)| == |entries|
    ensures forall i :: 0 <= i < |entries| ==> Source(entries, "", mapper)[i] == mapper(entries[i])
  {
  }

  /** With something typed, the list shows exactly the entries whose label
      contains it, ignoring case, in their order. */
  lemma SourceFiltered<T(!new)>(entries: seq<Labelled<T>>, input: string, mapper: Labelled<T> -> Choice<T>)
    requires input != ""
    ensures forall y :: y in Source(entries, input, mapper) <==>
      exists e :: e in entries && IncludesIgnoringCase(e.nombreCompleto, input) && mapper(e) == y
    ensures IsSubsequence(Source(entries, input, mapper), Map(entries, mapper))
    ensures Source(entries, input, mapper) == Map(Filter(entries, Matches(input)), mapper)
    // The entries mapped, before mapping: in their order, all matching, and
    // every matching entry as often as it occurs.
    ensures IsSubsequence(Filter(entries, Matches(input)), entries)
    ensures forall e :: e in Filter(entries, Matches(input)) ==> IncludesIgnoringCase(e.nombreCompleto, input)
    ensures forall e: Labelled<T> :: IncludesIgnoringCase(e.nombreCompleto, input) ==>
      multiset(Filter(entries, Matches(input)))[e] == multiset(entries)[e]
  {
    MapFilterMembership(entries, Matches(input), mapper);
    FilterSpec(entries, Matches(input));
    MapSubsequence(Filter(entries, Matches(input)), entries, mapper);
  }

  /** The two branches agree: every label contains the empty text, so the
      filter would keep everything anyway. */
  lemma SourceEmptyAgrees<T(!new)>(entries: seq<Labelled<T>>, mapper: Labelled<T> -> Choice<T>)
    ensures Source(entries, "", mapper) == Map(Filter(entries, Matches("")), mapper)
  {
    forall e: Labelled<T> | e in entries ensures Matches("")(e) {
      assert ToLower("") <= ToLower(e.nombreCompleto)[0..];
    }
    FilterAll(entries, Matches(""));
  }

  lemma LowerCharIdempotent(c: char)
    ensures LowerChar(LowerChar(c)) == LowerChar(c)
  {
  }

  /** Typing in upper or lower case shows the same list. */
  lemma SourceIgnoresCase<T(!new)>(entries: seq<Labelled<T>>, input: string, mapper: Labelled<T> -> Choice<T>)
    ensures Source(entries, ToLower(input), mapper) == Source(entries, input, mapper)
  {
    forall i | 0 <= i < |input| {
      LowerCharIdempotent(input[i]);
    }
    assert ToLower(ToLower(input)) == ToLower(input);
    FilterCongruent(entries, Matches(ToLower(input)), Matches(input));
  }

  /** The client pick-list: with nothing typed, choice `i` shows the `i`-th
      client's full name, returns that client and is described by its
      address; with text typed, the clients offered are exactly those whose
      full name contains it, ignoring case, each shown the same way. */
  lemma ClientPickList(cs: seq<Cliente>, input: string)
    ensures var r := Source(LabelClients(cs), "", ClientChoice);
      && |r| == |cs|
      && forall i :: 0 <= i < |cs| ==>
        && r[i].name == cs[i].nombre + " " + cs[i].apellido
        && r[i].value.record == cs[i]
        && r[i].description == cs[i].direccion
    ensures input != "" ==>
      forall y :: y in Source(LabelClients(cs), input, ClientChoice) ==>
        && y.value.record in cs
        && y.name == y.value.record.nombre + " " + y.value.record.apellido
        && y.description == y.value.record.direccion
        && IncludesIgnoringCase(y.name, input)
    ensures input != "" ==>
      forall c :: c in cs && IncludesIgnoringCase(c.nombre + " " + c.apellido, input) ==>
        exists y :: y in Source(LabelClients(cs), input, ClientChoice) && y.value.record == c
  {
    var entries := LabelClients(cs);
    if input != "" {
      MapFilterMembership(entries, Matches(input), ClientChoice);
      forall c | c in cs && IncludesIgnoringCase(c.nombre + " " + c.apellido, input)
        ensures exists y :: y in Source(entries, input, ClientChoice) && y.value.record == c
      {
        var j :| 0 <= j < |cs| && cs[j] == c;
        assert entries[j] in entries;
        assert ClientChoice(entries[j]) in Source(entries, input, ClientChoice);
      }
      forall y | y in Source(entries, input, ClientChoice)
        ensures y.value.record in cs && y.name == y.value.record.nombre + " " + y.value.record.apellido
      {
        var e :| e in entries && IncludesIgnoringCase(e.nombreCompleto, input) && ClientChoice(e) == y;
        var j :| 0 <= j < |entries| && entries[j] == e;
      }
    }
  }

  /** The product pick-list: with nothing typed, choice `i` shows the `i`-th
      product as brand and name, returns that product and is described by its
      description; with text typed, the products offered are exactly those
      whose label contains it, ignoring case, each shown the same way. */
  lemma ProductPickList(ps: seq<Producto>, input: string)
    ensures var r := Source(LabelProducts(ps), "", ProductChoice);
      && |r| == |ps|
      && forall i :: 0 <= i < |ps| ==>
        && r[i].name == ps[i].marca + " (" + ps[i].nombre + ")"
        && r[i].value.record == ps[i]
        && r[i].description == ps[i].descripcion
    ensures input != "" ==>
      forall y :: y in Source(LabelProducts(ps), input, ProductChoice) ==>
        && y.value.record in ps
        && y.name == y.value.record.marca + " (" + y.value.record.nombre + ")"
        && y.description == y.value.record.descripcion
        && IncludesIgnoringCase(y.name, input)
    ensures input != "" ==>
      forall p :: p in ps && IncludesIgnoringCase(p.marca + " (" + p.nombre + ")", input) ==>
        exists y :: y in Source(LabelProducts(ps), input, ProductChoice) && y.value.record == p
  {
    if input != "" {
      ProductsOffered(ps, input);
    }
  }

  /** The typed half of `ProductPickList`. */
  lemma ProductsOffered(ps: seq<Producto>, input: string)
    requires input != ""
    ensures forall y :: y in Source(LabelProducts(ps), input, ProductChoice) ==>
      && y.value.record in ps
      && y.name == y.value.record.marca + " (" + y.value.record.nombre + ")"
      && y.description == y.value.record.descripcion
      && IncludesIgnoringCase(y.name, input)
    ensures forall p :: p in ps && IncludesIgnoringCase(p.marca + " (" + p.nombre + ")", input) ==>
      exists y :: y in Source(LabelProducts(ps), input, ProductChoice) && y.value.record == p
  {
    var entries := LabelProducts(ps);
    var offered := Source(entries, input, ProductChoice);
    MapFilterMembership(entries, Matches(input), ProductChoice);
    assert offered == Map(Filter(entries, Matches(input)), ProductChoice);
    forall p | p in ps && IncludesIgnoringCase(p.marca + " (" + p.nombre + ")", input)
      ensures exists y :: y in offered && y.value.record == p
    {
      var j :| 0 <= j < |ps| && ps[j] == p;
      assert entries[j] in entries && Matches(input)(entries[j]);
      assert ProductChoice(entries[j]) in offered;
    }
    forall y | y in offered
      ensures && y.value.record in ps
              && y.name == y.value.record.marca + " (" + y.value.record.nombre + ")"
              && y.description == y.value.record.descripcion
              && IncludesIgnoringCase(y.name, input)
    {
      var e :| e in entries && Matches(input)(e) && ProductChoice(e) == y;
      var j :| 0 <= j < |entries| && entries[j] == e;
      assert e.record == ps[j] && e.nombreCompleto == ProductLabel(ps[j]);
    }
  }
}
