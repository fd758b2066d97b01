/** The boleto record a gateway stores with an order (post meta `wc_boleto_data`):
    the identifiers, the three dates, the amount and the payer's name and address,
    each kept as the text the bank layouts print. */
module BoletoData {
  import opened Options
  import opened Decimal
  import opened PhpText
  import opened PhpArray
  import opened CivilDate
  import opened DateText
  import opened Money

  /** What the generators read of a WooCommerce order; the total is in cents. */
  datatype Order = Order(
    id: int,
    totalCents: int,
    firstName: string,
    lastName: string,
    address1: string,
    address2: string,
    city: string,
    state: string,
    postcode: string,
    status: string,
    paymentMethod: string)

  /** What `new WC_Order($id)` holds when no order has that id: id 0, nothing else set. */
  const NoOrder := Order(0, 0, "", "", "", "", "", "", "", "", "")

  /** The record's keys, in the order the generators write them. */
  const DataKeys: seq<string> := [
    "nosso_numero", "numero_documento", "data_vencimento", "data_documento", "data_processamento",
    "valor_boleto", "sacado", "endereco1", "endereco2"]

  /** The payer: first name, one space, last name, neither of them trimmed. */
  function PayerName(o: Order): string {
    o.firstName + " " + o.lastName
  }

  /** The first address line: the second billing line is added after `, ` unless it is `empty()`. */
  function StreetLine(o: Order): string {
    if IsEmpty(o.address2) then o.address1 else o.address1 + ", " + o.address2
  }

  /** The second address line, `%s - %s - <label>: %s` over city, state and postcode. */
  function CityLine(o: Order, zipLabel: string): string {
    o.city + " - " + o.state + " - " + zipLabel + ": " + o.postcode
  }

  /** `date('d/m/Y', $now + $days * 86400)`. */
  function DueDate(now: int, days: int): string {
    DmyOfTimestamp(now + days * 86400)
  }

  /** The record written for order `o` at time `now`, due `days` days later, billing `amountCents`. */
  function Record(ourNumber: string, documentNumber: string, now: int, days: int, amountCents: int,
                  o: Order, zipLabel: string): Array<string, string>
  {
    Zip(DataKeys, [ourNumber, documentNumber, DueDate(now, days), DmyOfTimestamp(now), DmyOfTimestamp(now),
                   FormatCents(amountCents, ','), PayerName(o), StreetLine(o), CityLine(o, zipLabel)])
  }

  lemma DataKeysDistinct()
    ensures NoDuplicates(DataKeys)
  {
  }

  /** The record has the nine keys, in writing order, each once. */
  lemma RecordKeys(ourNumber: string, documentNumber: string, now: int, days: int, amountCents: int,
                   o: Order, zipLabel: string)
    ensures Keys(Record(ourNumber, documentNumber, now, days, amountCents, o, zipLabel)) == DataKeys
    ensures DistinctKeys(Record(ourNumber, documentNumber, now, days, amountCents, o, zipLabel))
  {
    var r := Record(ourNumber, documentNumber, now, days, amountCents, o, zipLabel);
    DataKeysDistinct();
    DistinctKeysIff(r);
  }

  /** Reading the record: each key holds what the generator computes for it. */
  lemma RecordFields(ourNumber: string, documentNumber: string, now: int, days: int, amountCents: int,
                     o: Order, zipLabel: string)
    ensures var r := Record(ourNumber, documentNumber, now, days, amountCents, o, zipLabel);
      && Get(r, "nosso_numero") == Some(ourNumber)
      && Get(r, "numero_documento") == Some(documentNumber)
      && Get(r, "data_vencimento") == Some(DmyOfTimestamp(now + days * 86400))
      && Get(r, "data_documento") == Some(DmyOfTimestamp(now))
      && Get(r, "data_processamento") == Some(DmyOfTimestamp(now))
      && Get(r, "valor_boleto") == Some(FormatCents(amountCents, ','))
      && Get(r, "sacado") == Some(o.firstName + " " + o.lastName)
      && Get(r, "endereco1") == Some(if IsEmpty(o.address2) then o.address1 else o.address1 + ", " + o.address2)
      && Get(r, "endereco2") == Some(o.city + " - " + o.state + " - " + zipLabel + ": " + o.postcode)
  {
    var r := Record(ourNumber, documentNumber, now, days, amountCents, o, zipLabel);
    RecordKeys(ourNumber, documentNumber, now, days, amountCents, o, zipLabel);
    GetAt(r, 0);
    GetAt(r, 1);
    GetAt(r, 2);
    GetAt(r, 3);
    GetAt(r, 4);
    GetAt(r, 5);
    GetAt(r, 6);
    GetAt(r, 7);
    GetAt(r, 8);
  }

  /** Two records for the same order and identifiers differ at most in the amount and in the
      address label: they are the same entries, in the same order, but for the sixth
      (`valor_boleto`) and the ninth (`endereco2`). */
  lemma RecordsDiffer(ourNumber: string, documentNumber: string, now: int, days: int,
                      c1: int, c2: int, o: Order, l1: string, l2: string)
    ensures Record(ourNumber, documentNumber, now, days, c2, o, l2)
         == Record(ourNumber, documentNumber, now, days, c1, o, l1)
              [5 := Entry("valor_boleto", FormatCents(c2, ','))][8 := Entry("endereco2", CityLine(o, l2))]
  {
    var r1 := Record(ourNumber, documentNumber, now, days, c1, o, l1);
    var r2 := Record(ourNumber, documentNumber, now, days, c2, o, l2);
    var r := r1[5 := Entry("valor_boleto", FormatCents(c2, ','))][8 := Entry("endereco2", CityLine(o, l2))];
    assert |r| == |r2| == 9;
    forall i | 0 <= i < 9
      ensures r[i] == r2[i]
    {
    }
  }

  /** The due date is the calendar date `days` days after the date of `now`; for a four-digit
      year it reads back as that date. */
  lemma DueDateMeaning(now: int, days: nat)
    ensures ValidDate(AddDays(DateOfTimestamp(now), days))
    ensures DueDate(now, days) == FormatDmy(AddDays(DateOfTimestamp(now), days))
    ensures 0 <= AddDays(DateOfTimestamp(now), days).year <= 9999 ==>
      ParseDmy(DueDate(now, days)) == Some(AddDays(DateOfTimestamp(now), days))
  {
    DmyAfterDays(now, days);
    var d := AddDays(DateOfTimestamp(now), days);
    if 0 <= d.year <= 9999 {
      ParseFormatDmy(d);
    }
  }

  /** The amount is written with exactly two decimals after a comma, and reads back as the cents billed. */
  lemma AmountMeaning(amountCents: int)
    ensures ParseAmount(FormatCents(amountCents, ','), ',') == Some(amountCents)
    ensures var r := FormatCents(amountCents, ',');
      |r| >= 4 && r[|r| - 3] == ',' && AllDigits(r[|r| - 2..]) && ',' !in r[..|r| - 3]
  {
    ParseFormatCents(amountCents, ',');
    FormatCentsShape(amountCents, ',');
  }

  /** The payer's name splits back into the two names at the added space: nothing is trimmed. */
  lemma PayerNameSplits(o: Order)
    ensures var n := PayerName(o);
      |n| == |o.firstName| + 1 + |o.lastName|
      && n[..|o.firstName|] == o.firstName && n[|o.firstName|] == ' ' && n[|o.firstName| + 1..] == o.lastName
  {
  }

  /** The first address line is the first billing line exactly when the second is `empty()`;
      otherwise it is both lines around `, `. */
  lemma StreetLineMeaning(o: Order)
    ensures StreetLine(o) == o.address1 <==> IsEmpty(o.address2)
    ensures !IsEmpty(o.address2) ==>
      StreetLine(o)[..|o.address1|] == o.address1 && StreetLine(o)[|o.address1|..|o.address1| + 2] == ", "
      && StreetLine(o)[|o.address1| + 2..] == o.address2
  {
    if !IsEmpty(o.address2) {
      assert |StreetLine(o)| > |o.address1|;
    }
  }

  /** The second address line ends with the label and the postcode after it. */
  lemma CityLineMeaning(o: Order, zipLabel: string)
    ensures var l := CityLine(o, zipLabel);
      var n := |zipLabel| + 2 + |o.postcode|;
      |l| >= n && l[|l| - n..] == zipLabel + ": " + o.postcode
      && l[..|o.city| + 3] == o.city + " - "
  {
    var l := CityLine(o, zipLabel);
    var n := |zipLabel| + 2 + |o.postcode|;
    assert l == (o.city + " - " + o.state + " - ") + (zipLabel + ": " + o.postcode);
  }

  /** Nine writes of distinct keys into an empty array give the array literal of those entries. */
  lemma NineWrites<K, V>(k0: K, k1: K, k2: K, k3: K, k4: K, k5: K, k6: K, k7: K, k8: K,
                         v0: V, v1: V, v2: V, v3: V, v4: V, v5: V, v6: V, v7: V, v8: V)
    requires NoDuplicates([k0, k1, k2, k3, k4, k5, k6, k7, k8])
    ensures Put(Put(Put(Put(Put(Put(Put(Put(Put([], k0, v0), k1, v1), k2, v2), k3, v3), k4, v4), k5, v5), k6, v6), k7, v7), k8, v8)
         == Zip([k0, k1, k2, k3, k4, k5, k6, k7, k8], [v0, v1, v2, v3, v4, v5, v6, v7, v8])
  {
    var ks := [k0, k1, k2, k3, k4, k5, k6, k7, k8];
    var vs := [v0, v1, v2, v3, v4, v5, v6, v7, v8];
    var a0: Array<K, V> := [];
    assert a0 == Zip(ks[..0], vs[..0]);
    var a1 := Put(a0, ks[0], vs[0]);
    ZipSnoc(ks, vs, 0, a0, a1);
    var a2 := Put(a1, ks[1], vs[1]);
    ZipSnoc(ks, vs, 1, a1, a2);
    var a3 := Put(a2, ks[2], vs[2]);
    ZipSnoc(ks, vs, 2, a2, a3);
    var a4 := Put(a3, ks[3], vs[3]);
    ZipSnoc(ks, vs, 3, a3, a4);
    var a5 := Put(a4, ks[4], vs[4]);
    ZipSnoc(ks, vs, 4, a4, a5);
    var a6 := Put(a5, ks[5], vs[5]);
    ZipSnoc(ks, vs, 5, a5, a6);
    var a7 := Put(a6, ks[6], vs[6]);
    ZipSnoc(ks, vs, 6, a6, a7);
    var a8 := Put(a7, ks[7], vs[7]);
    ZipSnoc(ks, vs, 7, a7, a8);
    var a9 := Put(a8, ks[8], vs[8]);
    ZipSnoc(ks, vs, 8, a8, a9);
    assert ks[..9] == ks && vs[..9] == vs;
  }

  /** Fills the record key by key, `$data['nosso_numero'] = …` and so on, in the generators' order. */
  method BuildRecord(ourNumber: string, documentNumber: string, now: int, days: int, amountCents: int,
                     o: Order, zipLabel: string) returns (data: Array<string, string>)
    ensures data == Record(ourNumber, documentNumber, now, days, amountCents, o, zipLabel)
  {
    var due := DmyOfTimestamp(now + days * 86400);
    var today := DmyOfTimestamp(now);
    var amount := FormatCents(amountCents, ',');
    var payer := o.firstName + " " + o.lastName;
    var street := if !IsEmpty(o.address2) then o.address1 + ", " + o.address2 else o.address1;
    var city := o.city + " - " + o.state + " - " + zipLabel + ": " + o.postcode;
    DataKeysDistinct();
    NineWrites("nosso_numero", "numero_documento", "data_vencimento", "data_documento", "data_processamento",
               "valor_boleto", "sacado", "endereco1", "endereco2",
               ourNumber, documentNumber, due, today, today, amount, payer, street, city);
    data := [];
    data := Put(data, "nosso_numero", ourNumber);
    data := Put(data, "numero_documento", documentNumber);
    data := Put(data, "data_vencimento", due);
    data := Put(data, "data_documento", today);
    data := Put(data, "data_processamento", today);
    data := Put(data, "valor_boleto", amount);
    data := Put(data, "sacado", payer);
    data := Put(data, "endereco1", street);
    data := Put(data, "endereco2", city);
  }
}
