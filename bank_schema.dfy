/** The gateway's settings form: the eleven banks' own fields and the form the
    settings page shows, the general settings, then the bank's fields, then the
    optional and shop settings. Titles and descriptions are the untranslated
    message ids. */
module BankSchema {
  import opened Options
  import opened PhpArray

  /** The settings form's keys: the general settings, the banks' fields, the closing settings. */
  datatype FieldKey =
    Enabled | Title | Description | BoletoDetails | BoletoTime | BoletoLogo | BankDetails | Bank | Agencia |
    Conta | Convenio | Contrato | Carteira | VariacaoCarteira | FormatacaoConvenio | FormatacaoNossoNumero |
    AgenciaDv | ContaDv | ContaCedente | ContaCedenteDv | InicioNossoNumero | CodigoCedente |
    ModalidadeConta | CodigoCliente | PontoVenda | CarteiraDescricao | ExtraDetails | Quantidade |
    ValorUnitario | Aceite | Especie | EspecieDoc | ShopDetails | CpfCnpj | Endereco | CidadeUf | Cedente

  /** The PHP array key of each field. */
  function KeyName(k: FieldKey): string {
    match k
    case Enabled => "enabled"
    case Title => "title"
    case Description => "description"
    case BoletoDetails => "boleto_details"
    case BoletoTime => "boleto_time"
    case BoletoLogo => "boleto_logo"
    case BankDetails => "bank_details"
    case Bank => "bank"
    case Agencia => "agencia"
    case Conta => "conta"
    case Convenio => "convenio"
    case Contrato => "contrato"
    case Carteira => "carteira"
    case VariacaoCarteira => "variacao_carteira"
    case FormatacaoConvenio => "formatacao_convenio"
    case FormatacaoNossoNumero => "formatacao_nosso_numero"
    case AgenciaDv => "agencia_dv"
    case ContaDv => "conta_dv"
    case ContaCedente => "conta_cedente"
    case ContaCedenteDv => "conta_cedente_dv"
    case InicioNossoNumero => "inicio_nosso_numero"
    case CodigoCedente => "codigo_cedente"
    case ModalidadeConta => "modalidade_conta"
    case CodigoCliente => "codigo_cliente"
    case PontoVenda => "ponto_venda"
    case CarteiraDescricao => "carteira_descricao"
    case ExtraDetails => "extra_details"
    case Quantidade => "quantidade"
    case ValorUnitario => "valor_unitario"
    case Aceite => "aceite"
    case Especie => "especie"
    case EspecieDoc => "especie_doc"
    case ShopDetails => "shop_details"
    case CpfCnpj => "cpf_cnpj"
    case Endereco => "endereco"
    case CidadeUf => "cidade_uf"
    case Cedente => "cedente"
  }


  /** The message ids the form passes to `__()`: titles, descriptions, the checkbox label and two
      translated defaults. */
  datatype Message =
    AgencyTitle | AccountTitle | AgreementTitle | ContractTitle | WalletCodeTitle | WalletVariationTitle |
    AgreementFormatTitle | OurNumberFormatTitle | AgencyDigitTitle | AccountDigitTitle | AssignorTitle |
    AssignorDigitTitle | OurNumberStartTitle | AssignorCodeTitle | NossaCaixaAssignorTitle |
    NossaCaixaAssignorDigitTitle | AccountModalityTitle | SantanderClientTitle | PointOfSaleTitle |
    WalletDescriptionTitle | ClientCodeTitle | EnableTitle | TitleFieldTitle | DescriptionTitle |
    BoletoDetailsTitle | DeadlineTitle | BoletoLogoTitle | BankDetailsTitle | BankTitle |
    OptionalDataTitle | QuantityTitle | UnitValueTitle | AcceptanceTitle | CurrencyTitle |
    DocumentKindTitle | ShopDetailsTitle | CpfCnpjTitle | AddressTitle | CityStateTitle |
    CorporateNameTitle | SrWalletHelp | AgencyHelp | AccountHelp | BbAgreementHelp | BbContractHelp |
    WalletHelp | BbWalletVariationHelp | BbAgreementFormatHelp | BbOurNumberFormatHelp |
    BradescoAssignorHelp | BradescoWalletHelp | CefAssignorHelp | CefAssignorDigitHelp |
    CefOurNumberStartHelp | SigcbAssignorHelp | HsbcAssignorCodeHelp | HsbcWalletHelp | ItauAgencyHelp |
    ItauWalletHelp | NossaCaixaAssignorHelp | NossaCaixaWalletHelp | NossaCaixaModalityHelp |
    SantanderClientHelp | SantanderPointOfSaleHelp | SantanderWalletHelp | SantanderWalletDescriptionHelp |
    UnibancoClientHelp | EnableLabel | TitleHelp | DescriptionHelp | DeadlineHelp | LogoHelp | BankHelp |
    CpfCnpjHelp | AddressHelp | CityStateHelp | BoletoName | PayWithBoleto

  datatype FieldType = Checkbox | Text | TextArea | SectionTitle | Select

  /** A PHP scalar default: a plain string, an integer literal or a translated message. */
  datatype Scalar = Str(s: string) | Num(n: int) | Translated(m: Message)

  datatype FieldSpec = FieldSpec(
    title: Message,
    fieldType: FieldType,
    checkboxLabel: Option<Message>,
    description: Option<Message>,
    default: Option<Scalar>,
    options: Array<string, string>)

  function TextField(title: Message, description: Option<Message>, default: Option<Scalar>): FieldSpec {
    FieldSpec(title, Text, None, description, default, [])
  }

  function Heading(title: Message): FieldSpec {
    FieldSpec(title, SectionTitle, None, None, None, [])
  }

  /** The bank identifiers `get_bank_fields` knows, in the order of its cases. */
  const BankIds: seq<string> :=
    ["bb", "bradesco", "cef", "cef_sigcb", "cef_sinco", "hsbc", "itau", "nossacaixa", "real", "santander", "unibanco"]

  /** The `options` of the bank select: the `--` placeholder, then one label per bank. */
  const BankOptions: Array<string, string> := [
    Entry("0", "--"),
    Entry("bb", "Banco do Brasil"),
    Entry("bradesco", "Bradesco"),
    Entry("cef", "Caixa Economica Federal - SR (SICOB)"),
    Entry("cef_sigcb", "Caixa Economica Federal - SIGCB"),
    Entry("cef_sinco", "Caixa Economica Federal - SINCO"),
    Entry("hsbc", "HSBC"),
    Entry("itau", "Itau"),
    Entry("nossacaixa", "Nossa Caixa"),
    Entry("real", "Real"),
    Entry("santander", "Santander"),
    Entry("unibanco", "Unibanco")
  ]


  /** `get_bank_fields`: the configuration fields of one bank, in the order its case lists them;
      any other value has none. */
  function BankFields(bank: string): Array<FieldKey, FieldSpec> {
    match bank

    case "bb" => [
      Entry(Agencia, TextField(AgencyTitle, Some(AgencyHelp), None)),
      Entry(Conta, TextField(AccountTitle, Some(AccountHelp), None)),
      Entry(Convenio, TextField(AgreementTitle, Some(BbAgreementHelp), None)),
      Entry(Contrato, TextField(ContractTitle, Some(BbContractHelp), None)),
      Entry(Carteira, TextField(WalletCodeTitle, Some(WalletHelp), None)),
      Entry(VariacaoCarteira, TextField(WalletVariationTitle, Some(BbWalletVariationHelp), None)),
      Entry(FormatacaoConvenio, TextField(AgreementFormatTitle, Some(BbAgreementFormatHelp), None)),
      Entry(FormatacaoNossoNumero, TextField(OurNumberFormatTitle, Some(BbOurNumberFormatHelp), Some(Num(2))))
    ]

    case "bradesco" => [
      Entry(Agencia, TextField(AgencyTitle, Some(AgencyHelp), None)),
      Entry(AgenciaDv, TextField(AgencyDigitTitle, None, None)),
      Entry(Conta, TextField(AccountTitle, Some(AccountHelp), None)),
      Entry(ContaDv, TextField(AccountDigitTitle, None, None)),
      Entry(ContaCedente, TextField(AssignorTitle, Some(BradescoAssignorHelp), None)),
      Entry(ContaCedenteDv, TextField(AssignorDigitTitle, None, None)),
      Entry(Carteira, TextField(WalletCodeTitle, Some(BradescoWalletHelp), None))
    ]

    case "cef" => [
      Entry(Agencia, TextField(AgencyTitle, Some(AgencyHelp), None)),
      Entry(Conta, TextField(AccountTitle, Some(AccountHelp), None)),
      Entry(ContaDv, TextField(AccountDigitTitle, None, None)),
      Entry(ContaCedente, TextField(AssignorTitle, Some(CefAssignorHelp), None)),
      Entry(ContaCedenteDv, TextField(AssignorDigitTitle, Some(CefAssignorDigitHelp), None)),
      Entry(Carteira, TextField(WalletCodeTitle, Some(SrWalletHelp), Some(Str("SR")))),
      Entry(InicioNossoNumero, TextField(OurNumberStartTitle, Some(CefOurNumberStartHelp), Some(Str("80"))))
    ]

    case "cef_sigcb" => [
      Entry(Agencia, TextField(AgencyTitle, Some(AgencyHelp), None)),
      Entry(Conta, TextField(AccountTitle, Some(AccountHelp), None)),
      Entry(ContaDv, TextField(AccountDigitTitle, None, None)),
      Entry(ContaCedente, TextField(AssignorTitle, Some(SigcbAssignorHelp), None)),
      Entry(Carteira, TextField(WalletCodeTitle, Some(SrWalletHelp), Some(Str("SR"))))
    ]

    case "cef_sinco" => [
      Entry(Agencia, TextField(AgencyTitle, Some(AgencyHelp), None)),
      Entry(Conta, TextField(AccountTitle, Some(AccountHelp), None)),
      Entry(ContaDv, TextField(AccountDigitTitle, None, None)),
      Entry(ContaCedente, TextField(AssignorTitle, Some(CefAssignorHelp), None)),
      Entry(ContaCedenteDv, TextField(AssignorDigitTitle, Some(CefAssignorDigitHelp), None)),
      Entry(Carteira, TextField(WalletCodeTitle, Some(SrWalletHelp), Some(Str("SR"))))
    ]

    case "hsbc" => [
      Entry(CodigoCedente, TextField(AssignorCodeTitle, Some(HsbcAssignorCodeHelp), None)),
      Entry(Carteira, TextField(WalletCodeTitle, Some(HsbcWalletHelp), Some(Str("CNR"))))
    ]

    case "itau" => [
      Entry(Agencia, TextField(AgencyTitle, Some(ItauAgencyHelp), None)),
      Entry(Conta, TextField(AccountTitle, Some(AccountHelp), None)),
      Entry(ContaDv, TextField(AccountDigitTitle, None, None)),
      Entry(Carteira, TextField(WalletCodeTitle, Some(ItauWalletHelp), None))
    ]

    case "nossacaixa" => [
      Entry(Agencia, TextField(AgencyTitle, Some(AgencyHelp), None)),
      Entry(ContaCedente, TextField(NossaCaixaAssignorTitle, Some(NossaCaixaAssignorHelp), None)),
      Entry(ContaCedenteDv, TextField(NossaCaixaAssignorDigitTitle, None, None)),
      Entry(Carteira, TextField(WalletCodeTitle, Some(NossaCaixaWalletHelp), None)),
      Entry(ModalidadeConta, TextField(AccountModalityTitle, Some(NossaCaixaModalityHelp), None))
    ]

    case "real" => [
      Entry(Agencia, TextField(AgencyTitle, Some(AgencyHelp), None)),
      Entry(Conta, TextField(AccountTitle, Some(AccountHelp), None)),
      Entry(Carteira, TextField(WalletCodeTitle, Some(WalletHelp), None))
    ]

    case "santander" => [
      Entry(CodigoCliente, TextField(SantanderClientTitle, Some(SantanderClientHelp), None)),
      Entry(PontoVenda, TextField(PointOfSaleTitle, Some(SantanderPointOfSaleHelp), None)),
      Entry(Carteira, TextField(WalletCodeTitle, Some(SantanderWalletHelp), None)),
      Entry(CarteiraDescricao, TextField(WalletDescriptionTitle, Some(SantanderWalletDescriptionHelp), Some(Str("COBRANÇA SIMPLES - CSR"))))
    ]

    case "unibanco" => [
      Entry(Agencia, TextField(AgencyTitle, Some(AgencyHelp), None)),
      Entry(Conta, TextField(AccountTitle, Some(AccountHelp), None)),
      Entry(ContaDv, TextField(AccountDigitTitle, None, None)),
      Entry(CodigoCliente, TextField(ClientCodeTitle, Some(UnibancoClientHelp), None)),
      Entry(Carteira, TextField(WalletCodeTitle, Some(WalletHelp), None))
    ]

    case _ => []
  }


  /** The general settings that open the form; `pluginUrl` is the plugin's base URL. */
  function FirstBlock(pluginUrl: string): Array<FieldKey, FieldSpec> {
    [
      Entry(Enabled, FieldSpec(EnableTitle, Checkbox, Some(EnableLabel), None, Some(Str("yes")), [])),
      Entry(Title, FieldSpec(TitleFieldTitle, Text, None, Some(TitleHelp), Some(Translated(BoletoName)), [])),
      Entry(Description, FieldSpec(DescriptionTitle, TextArea, None, Some(DescriptionHelp), Some(Translated(PayWithBoleto)), [])),
      Entry(BoletoDetails, Heading(BoletoDetailsTitle)),
      Entry(BoletoTime, TextField(DeadlineTitle, Some(DeadlineHelp), Some(Num(5)))),
      Entry(BoletoLogo, TextField(BoletoLogoTitle, Some(LogoHelp), Some(Str(pluginUrl + "assets/images/logo_empresa.png")))),
      Entry(BankDetails, Heading(BankDetailsTitle)),
      Entry(Bank, FieldSpec(BankTitle, Select, None, Some(BankHelp), Some(Translated(PayWithBoleto)), BankOptions))
    ]
  }


  /** The optional and shop settings that close the form. */
  function LastBlock(): Array<FieldKey, FieldSpec> {
    [
      Entry(ExtraDetails, Heading(OptionalDataTitle)),
      Entry(Quantidade, TextField(QuantityTitle, None, None)),
      Entry(ValorUnitario, TextField(UnitValueTitle, None, None)),
      Entry(Aceite, TextField(AcceptanceTitle, None, None)),
      Entry(Especie, TextField(CurrencyTitle, None, Some(Str("R$")))),
      Entry(EspecieDoc, TextField(DocumentKindTitle, None, None)),
      Entry(ShopDetails, Heading(ShopDetailsTitle)),
      Entry(CpfCnpj, TextField(CpfCnpjTitle, Some(CpfCnpjHelp), None)),
      Entry(Endereco, TextField(AddressTitle, Some(AddressHelp), None)),
      Entry(CidadeUf, TextField(CityStateTitle, Some(CityStateHelp), None)),
      Entry(Cedente, TextField(CorporateNameTitle, None, None))
    ]
  }


  /** `array_merge($first, get_bank_fields(), $last)`. */
  function FormFields(pluginUrl: string, bank: string): Array<FieldKey, FieldSpec> {
    Merge(Merge(FirstBlock(pluginUrl), BankFields(bank)), LastBlock())
  }

  /** Every key some bank's case uses. */
  const BankKeys: set<FieldKey> := {
    Agencia, AgenciaDv, Conta, ContaDv, Convenio, Contrato, Carteira, VariacaoCarteira, FormatacaoConvenio,
    FormatacaoNossoNumero, ContaCedente, ContaCedenteDv, InicioNossoNumero, CodigoCedente, ModalidadeConta,
    CodigoCliente, PontoVenda, CarteiraDescricao
  }

  /** The defaults the banks' cases set; every other bank field has none. */
  function BankDefault(bank: string, k: FieldKey): Option<Scalar> {
    match (bank, k)
    case ("bb", FormatacaoNossoNumero) => Some(Num(2))
    case ("cef", Carteira) => Some(Str("SR"))
    case ("cef", InicioNossoNumero) => Some(Str("80"))
    case ("cef_sigcb", Carteira) => Some(Str("SR"))
    case ("cef_sinco", Carteira) => Some(Str("SR"))
    case ("hsbc", Carteira) => Some(Str("CNR"))
    case ("santander", CarteiraDescricao) => Some(Str("COBRANÇA SIMPLES - CSR"))
    case _ => None
  }

  /** The first five banks' cases list exactly these keys, in this order. */
  lemma BankFieldKeysFirst()
    ensures Keys(BankFields("bb")) == [Agencia, Conta, Convenio, Contrato, Carteira, VariacaoCarteira,
      FormatacaoConvenio, FormatacaoNossoNumero]
    ensures Keys(BankFields("bradesco")) == [Agencia, AgenciaDv, Conta, ContaDv, ContaCedente, ContaCedenteDv, Carteira]
    ensures Keys(BankFields("cef")) == [Agencia, Conta, ContaDv, ContaCedente, ContaCedenteDv, Carteira, InicioNossoNumero]
    ensures Keys(BankFields("cef_sigcb")) == [Agencia, Conta, ContaDv, ContaCedente, Carteira]
    ensures Keys(BankFields("cef_sinco")) == [Agencia, Conta, ContaDv, ContaCedente, ContaCedenteDv, Carteira]
  {
  }

  /** The other six banks' cases list exactly these keys, in this order. */
  lemma BankFieldKeysRest()
    ensures Keys(BankFields("hsbc")) == [CodigoCedente, Carteira]
    ensures Keys(BankFields("itau")) == [Agencia, Conta, ContaDv, Carteira]
    ensures Keys(BankFields("nossacaixa")) == [Agencia, ContaCedente, ContaCedenteDv, Carteira, ModalidadeConta]
    ensures Keys(BankFields("real")) == [Agencia, Conta, Carteira]
    ensures Keys(BankFields("santander")) == [CodigoCliente, PontoVenda, Carteira, CarteiraDescricao]
    ensures Keys(BankFields("unibanco")) == [Agencia, Conta, ContaDv, CodigoCliente, Carteira]
  {
  }

  /** Any other value, the select's `0` placeholder among them, has no fields; the select offers
      the placeholder, then the eleven banks. */
  lemma UnknownBankFields(bank: string)
    ensures BankFields(bank) == [] <==> bank !in BankIds
    ensures BankFields("0") == []
    ensures Keys(BankOptions) == ["0"] + BankIds
  {
  }

  /** None of the eleven cases' key lists repeats a key. */
  lemma KeyListsDistinct()
    ensures NoDuplicates([Agencia, Conta, Convenio, Contrato, Carteira, VariacaoCarteira, FormatacaoConvenio, FormatacaoNossoNumero])
    ensures NoDuplicates([Agencia, AgenciaDv, Conta, ContaDv, ContaCedente, ContaCedenteDv, Carteira])
    ensures NoDuplicates([Agencia, Conta, ContaDv, ContaCedente, ContaCedenteDv, Carteira, InicioNossoNumero])
    ensures NoDuplicates([Agencia, Conta, ContaDv, ContaCedente, Carteira])
    ensures NoDuplicates([Agencia, Conta, ContaDv, ContaCedente, ContaCedenteDv, Carteira])
    ensures NoDuplicates([CodigoCedente, Carteira])
    ensures NoDuplicates([Agencia, Conta, ContaDv, Carteira])
    ensures NoDuplicates([Agencia, ContaCedente, ContaCedenteDv, Carteira, ModalidadeConta])
    ensures NoDuplicates([Agencia, Conta, Carteira])
    ensures NoDuplicates([CodigoCliente, PontoVenda, Carteira, CarteiraDescricao])
    ensures NoDuplicates([Agencia, Conta, ContaDv, CodigoCliente, Carteira])
  {
  }

  /** Whatever the bank, its fields have distinct keys. */
  lemma BankFieldsDistinct(bank: string)
    ensures DistinctKeys(BankFields(bank))
  {
    DistinctKeysIff(BankFields(bank));
    BankFieldKeysFirst();
    BankFieldKeysRest();
    KeyListsDistinct();
  }

  /** Every known bank asks for a wallet code (`carteira`). */
  lemma BankFieldsHaveWallet(bank: string)
    ensures bank in BankIds ==> Carteira in Keys(BankFields(bank))
  {
    BankFieldKeysFirst();
    BankFieldKeysRest();
  }

  /** Every bank field's key is one of `BankKeys`. */
  lemma BankFieldsFromBankKeys(bank: string)
    ensures forall k :: k in Keys(BankFields(bank)) ==> k in BankKeys
  {
    BankFieldKeysFirst();
    BankFieldKeysRest();
  }

  /** Each bank field's default is the one `BankDefault` gives. */
  lemma BankFieldDefaults(bank: string)
    ensures forall i :: 0 <= i < |BankFields(bank)| ==>
      BankFields(bank)[i].value.default == BankDefault(bank, BankFields(bank)[i].key)
  {
    FirstBanksDefaults();
    OtherBanksDefaults();
    UnknownBankFields(bank);
  }

  lemma FirstBanksDefaults()
    ensures forall i :: 0 <= i < |BankFields("bb")| ==>
      BankFields("bb")[i].value.default == BankDefault("bb", BankFields("bb")[i].key)
    ensures forall i :: 0 <= i < |BankFields("bradesco")| ==>
      BankFields("bradesco")[i].value.default == BankDefault("bradesco", BankFields("bradesco")[i].key)
    ensures forall i :: 0 <= i < |BankFields("cef")| ==>
      BankFields("cef")[i].value.default == BankDefault("cef", BankFields("cef")[i].key)
    ensures forall i :: 0 <= i < |BankFields("cef_sigcb")| ==>
      BankFields("cef_sigcb")[i].value.default == BankDefault("cef_sigcb", BankFields("cef_sigcb")[i].key)
    ensures forall i :: 0 <= i < |BankFields("cef_sinco")| ==>
      BankFields("cef_sinco")[i].value.default == BankDefault("cef_sinco", BankFields("cef_sinco")[i].key)
  {
  }

  lemma OtherBanksDefaults()
    ensures forall i :: 0 <= i < |BankFields("hsbc")| ==>
      BankFields("hsbc")[i].value.default == BankDefault("hsbc", BankFields("hsbc")[i].key)
    ensures forall i :: 0 <= i < |BankFields("itau")| ==>
      BankFields("itau")[i].value.default == BankDefault("itau", BankFields("itau")[i].key)
    ensures forall i :: 0 <= i < |BankFields("nossacaixa")| ==>
      BankFields("nossacaixa")[i].value.default == BankDefault("nossacaixa", BankFields("nossacaixa")[i].key)
    ensures forall i :: 0 <= i < |BankFields("real")| ==>
      BankFields("real")[i].value.default == BankDefault("real", BankFields("real")[i].key)
    ensures forall i :: 0 <= i < |BankFields("santander")| ==>
      BankFields("santander")[i].value.default == BankDefault("santander", BankFields("santander")[i].key)
    ensures forall i :: 0 <= i < |BankFields("unibanco")| ==>
      BankFields("unibanco")[i].value.default == BankDefault("unibanco", BankFields("unibanco")[i].key)
  {
  }

  /** The general settings' keys, in order, each once. */
  lemma FirstBlockKeys(pluginUrl: string)
    ensures Keys(FirstBlock(pluginUrl)) == [Enabled, Title, Description, BoletoDetails, BoletoTime, BoletoLogo, BankDetails, Bank]
    ensures DistinctKeys(FirstBlock(pluginUrl))
  {
    DistinctKeysIff(FirstBlock(pluginUrl));
    BlockKeyListsDistinct();
  }

  /** The closing settings' keys, in order, each once. */
  lemma LastBlockKeys()
    ensures Keys(LastBlock()) == [ExtraDetails, Quantidade, ValorUnitario, Aceite, Especie, EspecieDoc, ShopDetails,
      CpfCnpj, Endereco, CidadeUf, Cedente]
    ensures DistinctKeys(LastBlock())
  {
    DistinctKeysIff(LastBlock());
    BlockKeyListsDistinct();
  }

  lemma BlockKeyListsDistinct()
    ensures NoDuplicates([Enabled, Title, Description, BoletoDetails, BoletoTime, BoletoLogo, BankDetails, Bank])
    ensures NoDuplicates([ExtraDetails, Quantidade, ValorUnitario, Aceite, Especie, EspecieDoc, ShopDetails,
      CpfCnpj, Endereco, CidadeUf, Cedente])
  {
  }

  /** No bank key is also a key of the general or the closing settings, nor these of each other,
      and neither block repeats a key. */
  lemma BlocksDisjoint(pluginUrl: string)
    ensures forall k :: k in BankKeys ==> k !in Keys(FirstBlock(pluginUrl)) && k !in Keys(LastBlock())
    ensures forall k :: k in Keys(FirstBlock(pluginUrl)) ==> k !in Keys(LastBlock())
    ensures DistinctKeys(FirstBlock(pluginUrl)) && DistinctKeys(LastBlock())
  {
    FirstBlockKeys(pluginUrl);
    LastBlockKeys();
    BankKeysNotGeneral();
    BankKeysNotClosing();
    GeneralNotClosing();
  }

  lemma BankKeysNotGeneral()
    ensures forall k :: k in BankKeys ==> k !in [Enabled, Title, Description, BoletoDetails, BoletoTime, BoletoLogo, BankDetails, Bank]
  {
  }

  lemma BankKeysNotClosing()
    ensures forall k :: k in BankKeys ==> k !in [ExtraDetails, Quantidade, ValorUnitario, Aceite, Especie, EspecieDoc, ShopDetails,
      CpfCnpj, Endereco, CidadeUf, Cedente]
  {
  }

  lemma GeneralNotClosing()
    ensures forall k :: k in [Enabled, Title, Description, BoletoDetails, BoletoTime, BoletoLogo, BankDetails, Bank] ==> k !in [ExtraDetails, Quantidade, ValorUnitario, Aceite, Especie, EspecieDoc, ShopDetails,
      CpfCnpj, Endereco, CidadeUf, Cedente]
  {
  }

  /** The form is the general settings, then the bank's fields, then the closing settings, each key once:
      no bank field replaces a general setting and none is replaced. */
  lemma FormFieldsLayout(pluginUrl: string, bank: string)
    ensures FormFields(pluginUrl, bank) == FirstBlock(pluginUrl) + BankFields(bank) + LastBlock()
    ensures |FormFields(pluginUrl, bank)| == 19 + |BankFields(bank)|
    ensures DistinctKeys(FormFields(pluginUrl, bank))
    ensures forall k :: k in Keys(FirstBlock(pluginUrl)) ==> Get(FormFields(pluginUrl, bank), k) == Get(FirstBlock(pluginUrl), k)
  {
    BankFieldsDistinct(bank);
    BankFieldsFromBankKeys(bank);
    BlocksDisjoint(pluginUrl);
    FirstBlockKeys(pluginUrl);
    LastBlockKeys();
    MergeThree(FirstBlock(pluginUrl), BankFields(bank), LastBlock());
  }
}
