/** The boleto page, templates/boleto.php: from the `ref` query parameter (an order key) it
    either renders the layout of the configured bank over the boleto data, or sends the
    visitor to the home page. */
module BoletoTemplate {
  import opened Options
  import opened PhpText
  import opened PhpArray
  import opened Gateway

  /** What the page does: redirect to `url`, or include the layout of `bank` with the logo setting
      and the data `data` (`$dadosboleto`). */
  datatype Page =
    | Redirect(url: string)
    | Render(bank: string, logo: string, data: Array<string, string>)

  /** The keys the page sets itself, after copying the stored data and the settings. */
  const FixedKeys: seq<string> := [
    "demonstrativo1", "demonstrativo2", "demonstrativo3", "instrucoes1", "instrucoes2", "instrucoes3",
    "instrucoes4", "identificacao"]

  /** The data saved with order `id`; `get_post_meta` of an order without it gives nothing to copy. */
  function StoredData(meta: map<int, Array<string, string>>, id: int): (d: Array<string, string>)
    ensures id in meta ==> d == meta[id]
    ensures id !in meta ==> d == []
  {
    if id in meta then meta[id] else []
  }

  /** The two `foreach` loops: the stored data, then every setting written over it, each value sanitized. */
  function Merged(stored: Array<string, string>, settings: Array<string, string>,
                  sanitize: string -> string): Array<string, string>
  {
    Merge(Merge([], MapValues(sanitize, stored)), MapValues(sanitize, settings))
  }

  /** The eight descriptive keys written over the merged data `m`, in the page's order. */
  function WithFixed(m: Array<string, string>, shopName: string, homeUrl: string, emailFrom: string)
    : Array<string, string>
  {
    var d1 := Put(m, "demonstrativo1", "Payment for purchase in " + shopName);
    var d2 := Put(d1, "demonstrativo2", "Payment referred to the order #" + Get(d1, "nosso_numero").GetOr(""));
    var d3 := Put(d2, "demonstrativo3", shopName + " - " + homeUrl);
    var d4 := Put(d3, "instrucoes1", "- Mr. Cash, charge a fine of 2% after maturity");
    var d5 := Put(d4, "instrucoes2", "- Receive up to 10 days past due");
    var d6 := Put(d5, "instrucoes3", "- For questions please contact us: " + emailFrom);
    var d7 := Put(d6, "instrucoes4", "");
    Put(d7, "identificacao", shopName)
  }

  /** The page for the query parameter `ref` (`None` when it is not set). The order-key lookup,
      `sanitize_title`, `sanitize_text_field`, the shop name, the home URL and the shop's e-mail
      address are parameters. */
  function PageSpec(ref: Option<string>, sanitizeTitle: string -> string, orderIdOfKey: string -> int,
                    meta: map<int, Array<string, string>>, settings: Array<string, string>,
                    sanitize: string -> string, shopName: string, homeUrl: string, emailFrom: string): (p: Page)
    ensures p.Redirect? <==>
      ref.None? || orderIdOfKey(sanitizeTitle(ref.value)) == 0 || !Truthy(sanitize(Setting(settings, "bank")))
    ensures p.Redirect? ==> p.url == homeUrl
    ensures p.Render? ==> p.bank == sanitize(Setting(settings, "bank"))
    ensures p.Render? ==> p.logo == sanitize(Setting(settings, "boleto_logo"))
  {
    if ref.None? then Redirect(homeUrl)
    else
      var id := orderIdOfKey(sanitizeTitle(ref.value));
      if id == 0 then Redirect(homeUrl)
      else
        var bank := sanitize(Setting(settings, "bank"));
        if !Truthy(bank) then Redirect(homeUrl)
        else
          var m := Merged(StoredData(meta, id), settings, sanitize);
          Render(bank, sanitize(Setting(settings, "boleto_logo")), WithFixed(m, shopName, homeUrl, emailFrom))
  }

  lemma FixedKeysDistinct()
    ensures NoDuplicates(FixedKeys)
  {
  }

  /** Each descriptive key holds the page's own text, whatever the stored data or the settings
      held under it; every other key reads as in the merged data. The order number shown is the
      merged data's `nosso_numero`, and `instrucoes4` is empty. */
  lemma FixedOverride(m: Array<string, string>, shopName: string, homeUrl: string, emailFrom: string)
    ensures var d := WithFixed(m, shopName, homeUrl, emailFrom);
      && Get(d, "demonstrativo1") == Some("Payment for purchase in " + shopName)
      && Get(d, "demonstrativo2") == Some("Payment referred to the order #" + Get(m, "nosso_numero").GetOr(""))
      && Get(d, "demonstrativo3") == Some(shopName + " - " + homeUrl)
      && Get(d, "instrucoes1") == Some("- Mr. Cash, charge a fine of 2% after maturity")
      && Get(d, "instrucoes2") == Some("- Receive up to 10 days past due")
      && Get(d, "instrucoes3") == Some("- For questions please contact us: " + emailFrom)
      && Get(d, "instrucoes4") == Some("")
      && Get(d, "identificacao") == Some(shopName)
      && forall k :: k !in FixedKeys ==> Get(d, k) == Get(m, k)
  {
    var d1 := Put(m, "demonstrativo1", "Payment for purchase in " + shopName);
    var number := Get(d1, "nosso_numero").GetOr("");
    assert number == Get(m, "nosso_numero").GetOr("") by {
      PutSpec(m, "demonstrativo1", "Payment for purchase in " + shopName);
    }
    FixedKeysDistinct();
    EightPuts(m, "demonstrativo1", "demonstrativo2", "demonstrativo3", "instrucoes1", "instrucoes2", "instrucoes3",
              "instrucoes4", "identificacao",
              "Payment for purchase in " + shopName,
              "Payment referred to the order #" + number,
              shopName + " - " + homeUrl,
              "- Mr. Cash, charge a fine of 2% after maturity",
              "- Receive up to 10 days past due",
              "- For questions please contact us: " + emailFrom,
              "", shopName);
  }

  /** Settings win over the stored data: outside the descriptive keys, a key the settings have
      reads as their sanitized value, and any other key as the stored data's sanitized value. */
  lemma MergedGet(stored: Array<string, string>, settings: Array<string, string>,
                  sanitize: string -> string, k: string)
    requires DistinctKeys(stored) && DistinctKeys(settings)
    ensures Get(Merged(stored, settings, sanitize), k) ==
      if k in Keys(settings) then Some(sanitize(Setting(settings, k)))
      else if k in Keys(stored) then Some(sanitize(Setting(stored, k)))
      else None
  {
    var s1 := MapValues(sanitize, stored);
    var s2 := MapValues(sanitize, settings);
    assert DistinctKeys(s1) && (k in Keys(s1) <==> k in Keys(stored))
        && Get(s1, k) == if k in Keys(stored) then Some(sanitize(Get(stored, k).value)) else None by {
      MapValuesKeys(sanitize, stored);
    }
    assert DistinctKeys(s2) && (k in Keys(s2) <==> k in Keys(settings))
        && Get(s2, k) == if k in Keys(settings) then Some(sanitize(Get(settings, k).value)) else None by {
      MapValuesKeys(sanitize, settings);
    }
    assert Get(Merge([], s1), k) == Get(s1, k) by {
      MergeGet([], s1, k);
    }
    MergeGet(Merge([], s1), s2, k);
    if k in Keys(settings) {
      KeysMember(settings, k);
    } else if k in Keys(stored) {
      KeysMember(stored, k);
    }
  }

  /** On the render path a key other than the descriptive ones reads as the sanitized setting when
      the settings have it, and otherwise as the sanitized stored value; the order number the page
      shows is read the same way. */
  lemma RenderData(ref: Option<string>, sanitizeTitle: string -> string, orderIdOfKey: string -> int,
                   meta: map<int, Array<string, string>>, settings: Array<string, string>,
                   sanitize: string -> string, shopName: string, homeUrl: string, emailFrom: string, k: string)
    requires ref.Some? && DistinctKeys(StoredData(meta, orderIdOfKey(sanitizeTitle(ref.value)))) && DistinctKeys(settings)
    ensures var p := PageSpec(ref, sanitizeTitle, orderIdOfKey, meta, settings, sanitize, shopName, homeUrl, emailFrom);
      var stored := StoredData(meta, orderIdOfKey(sanitizeTitle(ref.value)));
      p.Render? ==>
        && (k !in FixedKeys ==>
              Get(p.data, k) == if k in Keys(settings) then Some(sanitize(Setting(settings, k)))
                                else if k in Keys(stored) then Some(sanitize(Setting(stored, k)))
                                else None)
        && Get(p.data, "demonstrativo2") == Some("Payment referred to the order #" +
             if "nosso_numero" in Keys(settings) then sanitize(Setting(settings, "nosso_numero"))
             else if "nosso_numero" in Keys(stored) then sanitize(Setting(stored, "nosso_numero"))
             else "")
  {
    var stored := StoredData(meta, orderIdOfKey(sanitizeTitle(ref.value)));
    var m := Merged(stored, settings, sanitize);
    FixedOverride(m, shopName, homeUrl, emailFrom);
    MergedGet(stored, settings, sanitize, k);
    MergedGet(stored, settings, sanitize, "nosso_numero");
  }

  /** The page as the template runs it: the guards, the two `foreach` loops and the eight writes. */
  method BoletoPage(ref: Option<string>, sanitizeTitle: string -> string, orderIdOfKey: string -> int,
                    meta: map<int, Array<string, string>>, settings: Array<string, string>,
                    sanitize: string -> string, shopName: string, homeUrl: string, emailFrom: string)
    returns (page: Page)
    ensures page == PageSpec(ref, sanitizeTitle, orderIdOfKey, meta, settings, sanitize, shopName, homeUrl, emailFrom)
  {
    if ref.None? {
      return Redirect(homeUrl);
    }
    var orderId := orderIdOfKey(sanitizeTitle(ref.value));
    if orderId == 0 {
      return Redirect(homeUrl);
    }
    var orderData := StoredData(meta, orderId);
    var bank := sanitize(Setting(settings, "bank"));
    if !Truthy(bank) {
      return Redirect(homeUrl);
    }
    var logo := sanitize(Setting(settings, "boleto_logo"));
    var data: Array<string, string> := [];
    var i := 0;
    while i < |orderData|
      invariant 0 <= i <= |orderData|
      invariant data == Merge([], MapValues(sanitize, orderData[..i]))
    {
      MapValuesSnoc(sanitize, orderData, i);
      MergeSnoc([], MapValues(sanitize, orderData[..i]), Entry(orderData[i].key, sanitize(orderData[i].value)));
      data := Put(data, orderData[i].key, sanitize(orderData[i].value));
      i := i + 1;
    }
    assert orderData[..i] == orderData;
    var j := 0;
    ghost var copied := data;
    while j < |settings|
      invariant 0 <= j <= |settings|
      invariant data == Merge(copied, MapValues(sanitize, settings[..j]))
    {
      MapValuesSnoc(sanitize, settings, j);
      MergeSnoc(copied, MapValues(sanitize, settings[..j]), Entry(settings[j].key, sanitize(settings[j].value)));
      data := Put(data, settings[j].key, sanitize(settings[j].value));
      j := j + 1;
    }
    assert settings[..j] == settings;
    data := Put(data, "demonstrativo1", "Payment for purchase in " + shopName);
    data := Put(data, "demonstrativo2", "Payment referred to the order #" + Get(data, "nosso_numero").GetOr(""));
    data := Put(data, "demonstrativo3", shopName + " - " + homeUrl);
    data := Put(data, "instrucoes1", "- Mr. Cash, charge a fine of 2% after maturity");
    data := Put(data, "instrucoes2", "- Receive up to 10 days past due");
    data := Put(data, "instrucoes3", "- For questions please contact us: " + emailFrom);
    data := Put(data, "instrucoes4", "");
    data := Put(data, "identificacao", shopName);
    page := Render(bank, logo, data);
  }
}
