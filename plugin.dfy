/** The plugin file woocommerce-boleto.php: the two WordPress filters it installs and the
    older gateway class it declares, whose boleto record adds the surcharge setting and
    is generated from the thank-you page only. */
module Plugin {
  import opened Options
  import opened Decimal
  import opened PhpText
  import opened PhpArray
  import opened BoletoData
  import opened Money
  import opened Gateway

  /** `wcboleto_add_gateway`: `$methods[] = 'WC_Boleto_Gateway'`, one new entry after all the others. */
  method AddGateway(methods: seq<string>) returns (r: seq<string>)
    ensures |r| == |methods| + 1
    ensures r[..|methods|] == methods && r[|methods|] == "WC_Boleto_Gateway"
  {
    r := methods;
    r := r + ["WC_Boleto_Gateway"];
  }

  /** The path of the boleto page template under the plugin directory `pluginPath`. */
  function BoletoTemplate(pluginPath: string): string {
    pluginPath + "templates/boleto.php"
  }

  /** `wcboleto_add_page_template`: the boleto template on the page `boleto`, any other page keeps its template. */
  function AddPageTemplate(pageTemplate: string, isBoletoPage: bool, pluginPath: string): (r: string)
    ensures isBoletoPage ==> r == BoletoTemplate(pluginPath)
    ensures !isBoletoPage ==> r == pageTemplate
  {
    if isBoletoPage then BoletoTemplate(pluginPath) else pageTemplate
  }

  /** Filtering twice chooses the same template as filtering once. */
  lemma AddPageTemplateIdempotent(pageTemplate: string, isBoletoPage: bool, pluginPath: string)
    ensures var once := AddPageTemplate(pageTemplate, isBoletoPage, pluginPath);
      AddPageTemplate(once, isBoletoPage, pluginPath) == once
  {
  }

  /** `new WC_Order($id)`: the order stored under `id`, whose id is then the one it was loaded by,
      or one with id 0 when there is none. */
  function LoadOrder(orders: map<int, Order>, id: int): (o: Order)
    ensures id in orders ==> o == orders[id].(id := id)
    ensures o.id == if id in orders then id else 0
  {
    if id in orders then orders[id].(id := id) else NoOrder
  }

  /** The record this gateway stores for order `o`: the order id itself as both identifiers,
      the order total plus `surchargeCents` (the surcharge setting, `RateCents`) as the amount and
      the `CEP` label. */
  function PluginRecord(o: Order, now: int, days: int, surchargeCents: int): Array<string, string> {
    Record(IntText(o.id), IntText(o.id), now, days, o.totalCents + surchargeCents, o, "CEP")
  }

  lemma PluginRecordIs(o: Order, now: int, days: int, surchargeCents: int, data: Array<string, string>)
    requires data == Record(IntText(o.id), IntText(o.id), now, days, o.totalCents + surchargeCents, o, "CEP")
    ensures data == PluginRecord(o, now, days, surchargeCents)
  {
  }

  /** An order of 49.90 with the surcharge typed as `2,95` is billed `52,85`. */
  lemma PluginSurchargeExample(o: Order, now: int, days: int)
    requires o.totalCents == 4990
    ensures Get(PluginRecord(o, now, days, RateCents("2,95")), "valor_boleto") == Some("52,85")
  {
    RecordFields(IntText(o.id), IntText(o.id), now, days, o.totalCents + RateCents("2,95"), o, "CEP");
    SurchargeExample();
  }

  /** With the identifier filters at their default, the record of this gateway is the record of the
      gateway class file but for the amount, which adds the surcharge, and the second address line,
      which says `CEP` where the other says `Zip Code`. */
  lemma RecordsOfBothGateways(o: Order, now: int, days: int, surchargeCents: int,
                              ourNumber: int -> string, documentNumber: int -> string)
    requires ourNumber(o.id) == IntText(o.id) && documentNumber(o.id) == IntText(o.id)
    ensures PluginRecord(o, now, days, surchargeCents)
         == GatewayRecord(o, now, days, ourNumber, documentNumber)
              [5 := Entry("valor_boleto", FormatCents(o.totalCents + surchargeCents, ','))]
              [8 := Entry("endereco2", CityLine(o, "CEP"))]
  {
    var n := IntText(o.id);
    RecordsDiffer(n, n, now, days, o.totalCents, o.totalCents + surchargeCents, o, "Zip Code", "CEP");
  }

  /** `WC_Boleto_Gateway` as woocommerce-boleto.php declares it, over its saved settings and the
      post meta store `meta`. */
  class LegacyGateway {
    const meta: PostMeta
    var settings: Array<string, string>
    var title: string
    var description: string
    var boletoTime: string
    var boletoRate: string
    var enabled: bool

    /** The constructor: the settings it keeps and the enabled flag. */
    constructor(currency: string, settings: Array<string, string>, meta: PostMeta)
      ensures this.settings == settings && this.meta == meta
      ensures title == Setting(settings, "title") && description == Setting(settings, "description")
      ensures boletoTime == Setting(settings, "boleto_time") && boletoRate == Setting(settings, "boleto_rate")
      ensures enabled <==> Setting(settings, "enabled") == "yes" && currency == "BRL"
    {
      this.meta := meta;
      this.settings := settings;
      title := Setting(settings, "title");
      description := Setting(settings, "description");
      boletoTime := Setting(settings, "boleto_time");
      boletoRate := Setting(settings, "boleto_rate");
      enabled := Setting(settings, "enabled") == "yes" && IsValidForUse(currency);
    }

    /** `process_payment`: the order is put on hold and the shopper is sent to the thank-you page;
        no boleto record is written here. */
    method ProcessPayment(o: Order) returns (held: Order, result: string)
      ensures held == o.(status := "on-hold") && result == "success"
    {
      held := o.(status := "on-hold");
      result := "success";
    }

    /** `generate_boleto_data`: the id is cast with `(int)`; only an order that exists gets a record. */
    method GenerateBoletoData(orderId: string, orders: map<int, Order>, now: int)
      modifies meta
      ensures var id := IntCast(orderId);
        meta.boletoData == if id in orders && id != 0
                           then old(meta.boletoData)[id := PluginRecord(LoadOrder(orders, id), now, DeadlineDays(boletoTime), RateCents(boletoRate))]
                           else old(meta.boletoData)
    {
      var id := IntCast(orderId);
      var o := LoadOrder(orders, id);
      if o.id != 0 {
        var rate := ReplaceChar(boletoRate, ',', '.');
        var surcharge := ParseAmount(rate, '.').GetOr(0);
        RateCentsOf(boletoRate, rate, surcharge);
        var days := DeadlineDays(boletoTime);
        var data := BuildRecord(IntText(o.id), IntText(o.id), now, days, o.totalCents + surcharge, o, "CEP");
        PluginRecordIs(o, now, days, surcharge, data);
        meta.Update(o.id, data);
      }
    }

    /** `thankyou_page`: the record is generated only when the description is not `empty()`. */
    method ThankyouPage(orderId: string, orders: map<int, Order>, now: int)
      modifies meta
      ensures var id := IntCast(orderId);
        meta.boletoData == if Truthy(description) && id in orders && id != 0
                           then old(meta.boletoData)[id := PluginRecord(LoadOrder(orders, id), now, DeadlineDays(boletoTime), RateCents(boletoRate))]
                           else old(meta.boletoData)
    {
      if Truthy(description) {
        GenerateBoletoData(orderId, orders, now);
      }
    }
  }
}
