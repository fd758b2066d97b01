/** The payment gateway class of includes/class-wc-boleto-gateway.php: its settings,
    the settings form, the enabled flag, the boleto record it stores with an order and
    the guard of the e-mail instructions. */
module Gateway {
  import opened Options
  import opened Decimal
  import opened PhpText
  import opened PhpArray
  import opened BankSchema
  import opened BoletoData
  import opened DateText
  import opened Money

  /** `in_array(get_woocommerce_currency(), array('BRL'))`: the gateway works only in Brazilian reais. */
  function IsValidForUse(currency: string): (r: bool)
    ensures r <==> currency == "BRL"
  {
    currency in ["BRL"]
  }

  /** `$this->settings[$k]`; a setting never saved reads as the empty string, as PHP's null does. */
  function Setting(settings: Array<string, string>, k: string): string {
    Get(settings, k).GetOr("")
  }

  /** `$this->boleto_time * 86400` reads the deadline setting as a whole number of days. */
  function DeadlineDays(boletoTime: string): int {
    IntCast(boletoTime)
  }

  /** The record this gateway stores for order `o` at time `now`: the order id through the two
      identifier filters, the order total as the amount and the `Zip Code` label. */
  function GatewayRecord(o: Order, now: int, days: int, ourNumber: int -> string,
                         documentNumber: int -> string): Array<string, string>
  {
    Record(ourNumber(o.id), documentNumber(o.id), now, days, o.totalCents, o, "Zip Code")
  }

  /** The validity date the thank-you page and the e-mail print:
      `date('d/m/Y', time() + boleto_time * 86400)`. */
  function ValidityDate(days: int, now: int): string {
    DueDate(now, days)
  }

  /** Both identifiers are the order id through its filter, the amount is the order total and the
      second address line carries the `Zip Code` label. */
  lemma GatewayRecordFields(o: Order, now: int, days: int, ourNumber: int -> string, documentNumber: int -> string)
    ensures var r := GatewayRecord(o, now, days, ourNumber, documentNumber);
      && Get(r, "nosso_numero") == Some(ourNumber(o.id))
      && Get(r, "numero_documento") == Some(documentNumber(o.id))
      && Get(r, "valor_boleto") == Some(FormatCents(o.totalCents, ','))
      && Get(r, "endereco2") == Some(o.city + " - " + o.state + " - " + "Zip Code" + ": " + o.postcode)
  {
    RecordFields(ourNumber(o.id), documentNumber(o.id), now, days, o.totalCents, o, "Zip Code");
  }

  /** The post meta store: the `wc_boleto_data` record kept with each order id. */
  class PostMeta {
    var boletoData: map<int, Array<string, string>>

    constructor(boletoData: map<int, Array<string, string>>)
      ensures this.boletoData == boletoData
    {
      this.boletoData := boletoData;
    }

    /** `update_post_meta($id, 'wc_boleto_data', $data)`. */
    method Update(id: int, data: Array<string, string>)
      modifies this
      ensures boletoData == old(boletoData)[id := data]
    {
      boletoData := boletoData[id := data];
    }
  }

  /** `WC_Boleto_Gateway`, over the settings it was saved with and the post meta store `meta`. */
  class BoletoGateway {
    const pluginUrl: string
    const currency: string
    const meta: PostMeta
    var settings: Array<string, string>
    var formFields: Array<FieldKey, FieldSpec>
    var title: string
    var description: string
    var boletoTime: string
    var enabled: bool

    /** The constructor: form, settings, the three settings it keeps, and the enabled flag. */
    constructor(pluginUrl: string, currency: string, settings: Array<string, string>, meta: PostMeta)
      ensures this.pluginUrl == pluginUrl && this.currency == currency
      ensures this.settings == settings && this.meta == meta
      ensures formFields == FormFields(pluginUrl, Setting(settings, KeyName(Bank)))
      ensures title == Setting(settings, KeyName(Title)) && description == Setting(settings, KeyName(Description))
      ensures boletoTime == Setting(settings, KeyName(BoletoTime))
      ensures enabled <==> Setting(settings, KeyName(Enabled)) == "yes" && currency == "BRL"
    {
      this.pluginUrl := pluginUrl;
      this.currency := currency;
      this.settings := settings;
      this.meta := meta;
      formFields := [];
      new;
      InitFormFields();
      title := Setting(settings, KeyName(Title));
      description := Setting(settings, KeyName(Description));
      boletoTime := Setting(settings, KeyName(BoletoTime));
      enabled := Setting(settings, KeyName(Enabled)) == "yes" && IsValidForUse(currency);
    }

    /** `init_form_fields`: the general settings, the current bank's fields and the closing settings. */
    method InitFormFields()
      modifies this
      ensures formFields == FormFields(pluginUrl, Setting(settings, KeyName(Bank)))
      ensures settings == old(settings)
      ensures title == old(title) && description == old(description)
      ensures boletoTime == old(boletoTime) && enabled == old(enabled)
    {
      var bank := Setting(settings, KeyName(Bank));
      formFields := Merge(Merge(FirstBlock(pluginUrl), BankFields(bank)), LastBlock());
    }

    /** `generate_boleto_data`: fills the record for `o` and stores it with the order. */
    method GenerateBoletoData(o: Order, now: int, ourNumber: int -> string, documentNumber: int -> string)
      modifies meta
      ensures meta.boletoData == old(meta.boletoData)[o.id := GatewayRecord(o, now, DeadlineDays(boletoTime), ourNumber, documentNumber)]
    {
      var data := BuildRecord(ourNumber(o.id), documentNumber(o.id), now, DeadlineDays(boletoTime), o.totalCents, o,
                              "Zip Code");
      meta.Update(o.id, data);
    }

    /** `process_payment`: the order is put on hold, its boleto record is stored and the shopper
        is sent to the thank-you page. */
    method ProcessPayment(o: Order, now: int, ourNumber: int -> string, documentNumber: int -> string)
      returns (held: Order, result: string)
      modifies meta
      ensures held == o.(status := "on-hold") && result == "success"
      ensures meta.boletoData == old(meta.boletoData)[o.id := GatewayRecord(held, now, DeadlineDays(boletoTime), ourNumber, documentNumber)]
    {
      held := o.(status := "on-hold");
      GenerateBoletoData(held, now, ourNumber, documentNumber);
      result := "success";
    }

    /** `email_instructions`: nothing for the copy sent to the admin, for an order not on hold or
        for an order paid another way; otherwise the instructions, which print `ValidityDate(DeadlineDays(boletoTime), now)`. */
    function EmailInstructions(o: Order, sentToAdmin: bool, now: int): (r: Option<string>)
      reads this
      ensures r.Some? <==> !sentToAdmin && o.status == "on-hold" && o.paymentMethod == "boleto"
      ensures r.Some? ==> r.value == ValidityDate(DeadlineDays(boletoTime), now)
    {
      if sentToAdmin then None
      else if "on-hold" != o.status then None
      else if "boleto" != o.paymentMethod then None
      else Some(ValidityDate(DeadlineDays(boletoTime), now))
    }
  }

  /** The validity date printed for a boleto is the due date stored in its record. */
  lemma ValidityIsDueDate(o: Order, now: int, days: int, ourNumber: int -> string, documentNumber: int -> string)
    ensures Get(GatewayRecord(o, now, days, ourNumber, documentNumber), "data_vencimento")
         == Some(ValidityDate(days, now))
  {
    RecordFields(ourNumber(o.id), documentNumber(o.id), now, days, o.totalCents, o, "Zip Code");
  }
}
