# WooCommerce Boleto, modelled in Dafny

The plugin adds boleto payment to WooCommerce. A boleto is a Brazilian bank payment slip. This model covers three parts of it.

- **The settings form.** `get_bank_fields` is the fixed list of configuration fields for each of the eleven supported banks. `init_form_fields` joins the general settings, the current bank's fields and the closing settings with `array_merge`.
- **The boleto record** (`wc_boleto_data`) that a gateway stores with an order. It holds the two identifiers, the due date, the document and processing dates, the amount, the payer's name and the two address lines. The repository has two gateway classes that build it:
  - `WC_Boleto_Gateway` in includes/class-wc-boleto-gateway.php builds it in `process_payment`. It passes the order id through two filters and labels the postcode "Zip Code".
  - The older class of the same name in woocommerce-boleto.php builds it from the thank-you page. It first casts the id with `(int)` and checks that the order exists. It adds the surcharge setting to the total and labels the postcode "CEP".
- **The boleto page** (templates/boleto.php). It either redirects to the home page or renders the bank's layout over a data array. That array copies the stored record, then every setting, then eight descriptive texts.

Modules:

- `PhpArray`: PHP's ordered arrays.
  - `Get` reads `$a[$k]`.
  - `Put` is `$a[$k] = $v`: it overwrites a key in place or appends it.
  - `Merge` is `array_merge` for string keys, where later arrays win.
  - `MapValues` applies a function to every value.
- `PhpText`: the PHP string behaviour the plugin relies on. It covers `empty()`, truthiness, `str_replace` of one character and the `(int)` cast.
- `Decimal`: digit strings and their values, plus zero padding.
- `Money`: amounts as integer cents.
  - `FormatCents` is `number_format($x, 2, ',', '')`.
  - `ParseAmount` reads a decimal amount back.
  - `RateCents` is the surcharge setting after `,` becomes `.`.
- `CivilDate`: the proleptic Gregorian calendar.
  - Day counts convert to and from dates in closed form.
  - `NextDay` and `AddDays` give an independent step-by-step definition that the closed form is proved against.
- `DateText`: `date('d/m/Y', $t)` in UTC, and reading such a text back.
- `BankSchema`: the field specifications, the eleven bank cases, and the two setting blocks around them.
- `BoletoData`: the order snapshot, the record as a function of the order, the deadline, the time and the amount, and the method that fills it key by key.
- `Gateway`: the class file's gateway as a `class`. It has the post meta store as a `PostMeta` object, the constructor, `init_form_fields`, `generate_boleto_data`, `process_payment` and `email_instructions`.
- `Plugin`: woocommerce-boleto.php. It covers the two filters `wcboleto_add_gateway` and `wcboleto_add_page_template`, and the `LegacyGateway` class, which models the file's own `WC_Boleto_Gateway`.
- `BoletoTemplate`: the page as a function `PageSpec`. The method `BoletoPage` follows the template's early returns, its two `foreach` loops and its eight writes, and is proved equal to that function.

Time is a Unix timestamp in seconds. Money is integer cents. The following are parameters of the model:

- the current time;
- the identifier filters of the class file;
- `sanitize_text_field` and `sanitize_title`;
- the order-key lookup;
- the shop name, the home URL and the shop's e-mail address.

## Model

| member | source | states |
|---|---|---|
| BankSchema.BankFieldKeysFirst | includes/class-wc-boleto-gateway.php:227-407 | bb, bradesco, cef, cef_sigcb and cef_sinco each list exactly the keys of their case, in source order |
| BankSchema.BankFieldKeysRest | includes/class-wc-boleto-gateway.php:411-548 | hsbc, itau, nossacaixa, real, santander and unibanco each list exactly the keys of their case, in source order |
| BankSchema.UnknownBankFields | includes/class-wc-boleto-gateway.php:550-552 | a bank has no fields exactly when it is not one of the eleven ids; the `0` placeholder has none; the select offers `0` and then the eleven ids |
| BankSchema.BankFieldsDistinct | includes/class-wc-boleto-gateway.php:228-547 | no bank's field list repeats a key |
| BankSchema.BankFieldsHaveWallet | includes/class-wc-boleto-gateway.php:228-547 | every known bank has a `carteira` field |
| BankSchema.BankFieldsFromBankKeys | includes/class-wc-boleto-gateway.php:228-547 | every key of a bank's fields is one of the bank keys |
| BankSchema.BankFieldDefaults | includes/class-wc-boleto-gateway.php:226-556 | each bank field's default is exactly the one the case sets: cef `SR` and `80`, cef_sigcb and cef_sinco `SR`, hsbc `CNR`, bb 2, santander `COBRANÇA SIMPLES - CSR`; every other field has none |
| BankSchema.FirstBlockKeys | includes/class-wc-boleto-gateway.php:87-146 | the general settings' keys in order, each once |
| BankSchema.LastBlockKeys | includes/class-wc-boleto-gateway.php:148-197 | the closing settings' keys in order, each once |
| BankSchema.BlocksDisjoint | includes/class-wc-boleto-gateway.php:87-197 | no key is shared between the general settings, the bank keys and the closing settings |
| BankSchema.FormFieldsLayout | includes/class-wc-boleto-gateway.php:199 | the merged form is the concatenation of the three parts, 19 entries plus the bank's, with distinct keys; every general setting reads as declared |
| Gateway.BoletoGateway.InitFormFields | includes/class-wc-boleto-gateway.php:85-200 | `form_fields` becomes the merge for the saved bank setting and no other field changes |
| Gateway.BoletoGateway.constructor | includes/class-wc-boleto-gateway.php:14-43 | the form is built, title, description and deadline are read from the settings under the form's own keys (`KeyName`), and the gateway is enabled exactly when `enabled` is `yes` and the currency is BRL |
| Gateway.IsValidForUse | includes/class-wc-boleto-gateway.php:50-55 | valid exactly for the currency BRL |
| Gateway.PostMeta.Update | includes/class-wc-boleto-gateway.php:632 | the order's record is replaced and every other order's is kept |
| Gateway.BoletoGateway.GenerateBoletoData | includes/class-wc-boleto-gateway.php:618-633 | the meta store gains, under the order id, the record with the filtered identifiers, the order total and the `Zip Code` label, and nothing else changes |
| Gateway.BoletoGateway.ProcessPayment | includes/class-wc-boleto-gateway.php:565-587 | the order is put on hold, its record is stored for the on-hold order, and the result is `success` |
| Gateway.BoletoGateway.EmailInstructions | includes/class-wc-boleto-gateway.php:643-666 | instructions are produced exactly when not sent to the admin, the order is on hold and it was paid by boleto; they carry the validity date |
| Gateway.GatewayRecordFields | includes/class-wc-boleto-gateway.php:620-630 | both identifiers are the filtered order id, the amount is the order total and the second address line has the `Zip Code` label |
| Gateway.ValidityIsDueDate | includes/class-wc-boleto-gateway.php:604 | the validity date on the thank-you page and in the e-mail is the record's `data_vencimento` for the same time |
| BoletoData.BuildRecord | includes/class-wc-boleto-gateway.php:620-630 | the key-by-key writes produce the record `Record` defines |
| BoletoData.RecordKeys | includes/class-wc-boleto-gateway.php:620-630 | the record has the nine keys in writing order, each once |
| BoletoData.RecordFields | includes/class-wc-boleto-gateway.php:620-630 | each of the nine keys reads as the value computed for it; both document dates are the date of now |
| BoletoData.RecordsDiffer | woocommerce-boleto.php:350-360 | two records of one order with the same identifiers differ only in the amount entry and the second address line |
| BoletoData.DueDateMeaning | includes/class-wc-boleto-gateway.php:622 | the due date is the calendar date `days` days after today; for a four-digit year the text reads back as that date |
| BoletoData.AmountMeaning | includes/class-wc-boleto-gateway.php:625 | the amount has exactly two digits after a single comma and reads back as the cents billed |
| BoletoData.PayerNameSplits | includes/class-wc-boleto-gateway.php:628 | the payer name is the first name, one space and the last name, untrimmed |
| BoletoData.StreetLineMeaning | includes/class-wc-boleto-gateway.php:629 | the first address line is address 1 alone exactly when address 2 is `empty()`, and otherwise both lines around `, ` |
| BoletoData.CityLineMeaning | includes/class-wc-boleto-gateway.php:630 | the second address line starts with the city and ends with the label, `: ` and the postcode |
| Money.ParseFormatCents | includes/class-wc-boleto-gateway.php:625 | `number_format` to two decimals reads back as the same cents, negative amounts included |
| Money.FormatCentsShape | includes/class-wc-boleto-gateway.php:625 | exactly two digits follow the separator, the separator appears once, and a `-` leads exactly for a negative amount |
| DateText.ParseFormatDmy | includes/class-wc-boleto-gateway.php:622-624 | a `d/m/Y` date of a four-digit year is ten characters and reads back as that date |
| DateText.FormatDmyInjective | includes/class-wc-boleto-gateway.php:622-624 | two different dates of four-digit years never print alike |
| DateText.DmyAfterDays | includes/class-wc-boleto-gateway.php:622 | the text `n` days of seconds later is the date `n` calendar days later |
| DateText.DueDateExample | includes/class-wc-boleto-gateway.php:622-624 | issued at 2024-01-01T00:00:00Z, the documents show `01/01/2024`, and a five-day deadline falls on `06/01/2024` |
| CivilDate.CivilFromDaysCorrect | includes/class-wc-boleto-gateway.php:622-624 | every day count names a valid date whose day count is that number |
| CivilDate.DaysFromCivilCorrect | includes/class-wc-boleto-gateway.php:622-624 | every valid date is the date of its own day count |
| CivilDate.DaysFromCivilNext | includes/class-wc-boleto-gateway.php:622 | the day count steps by one with the calendar's successor |
| CivilDate.DateAfterDays | includes/class-wc-boleto-gateway.php:622 | adding `n` days of seconds to a timestamp moves its date `n` calendar days on |
| CivilDate.CivilEpoch | includes/class-wc-boleto-gateway.php:623 | day 0 is 1970-01-01 |
| PhpArray.PutSpec | templates/boleto.php:35 | after `$a[$k] = $v` the key reads `v`, every other key reads as before, the key order grows only by a new key, and distinct keys stay distinct |
| PhpArray.MergeGet | includes/class-wc-boleto-gateway.php:199 | in `array_merge($a, $b)` a key of `b` reads as in `b` and any other key reads as in `a` |
| PhpArray.MergeKeys | includes/class-wc-boleto-gateway.php:199 | a key is in the merge exactly when it is in `a` or `b`; the keys of `a` come first and in place; distinct keys stay distinct |
| PhpArray.MergeDisjoint | includes/class-wc-boleto-gateway.php:199 | merging an array whose keys are all new concatenates the two |
| PhpArray.MergeThree | includes/class-wc-boleto-gateway.php:199 | merging three arrays with pairwise disjoint keys concatenates them, and the first array's keys read as in it |
| PhpText.ReplaceChar | woocommerce-boleto.php:347 | every `from` becomes `to` and every other character is kept, position by position |
| PhpText.ReplaceCharSound | woocommerce-boleto.php:347 | no `from` is left after the replacement, and replacing again changes nothing |
| PhpText.IntCastIntText | woocommerce-boleto.php:342 | `(int)` reads a decimal number followed by non-digit text back as that number |
| PhpText.IntCastNonNumeric | woocommerce-boleto.php:342 | text that starts with no whitespace, sign or digit casts to 0 |
| Money.RateCommaOrPoint | woocommerce-boleto.php:347 | a surcharge typed with a decimal comma is read the same as with a point |
| Money.RateExample | woocommerce-boleto.php:347 | the surcharge `2,95` is 295 cents |
| Money.SurchargeExample | woocommerce-boleto.php:355 | 49.90 plus the surcharge `2,95` is written `52,85` |
| Plugin.AddGateway | woocommerce-boleto.php:98-101 | the input list is kept, with `WC_Boleto_Gateway` as the one new last element |
| Plugin.AddPageTemplate | woocommerce-boleto.php:41-47 | the boleto template on the `boleto` page; any other page keeps its template |
| Plugin.AddPageTemplateIdempotent | woocommerce-boleto.php:41-47 | applying the filter twice gives the same template as once |
| Plugin.LoadOrder | woocommerce-boleto.php:343 | an id with a stored order gives that order, carrying the id it was loaded by; any other id gives an order with id 0 |
| Plugin.LegacyGateway.constructor | woocommerce-boleto.php:115-156 | title, description, deadline and surcharge are copied from the settings; enabled exactly when `enabled` is `yes` and the currency is BRL |
| Plugin.LegacyGateway.ProcessPayment | woocommerce-boleto.php:302-321 | the order is put on hold and the result is `success`; the meta store is not touched |
| Plugin.LegacyGateway.GenerateBoletoData | woocommerce-boleto.php:341-364 | when the `(int)` id is not 0 and an order is stored under it, the store gains, under that id, the record with the raw id, the total plus the surcharge and the `CEP` label; otherwise the store is unchanged |
| Plugin.LegacyGateway.ThankyouPage | woocommerce-boleto.php:329-339 | the record is generated, as `GenerateBoletoData` states, exactly when the description is not `empty()`; otherwise the store is unchanged |
| Plugin.RecordsOfBothGateways | woocommerce-boleto.php:350-360 | with default filters, this record is the class file's record except for the surcharged amount and the `CEP` label |
| Plugin.PluginSurchargeExample | woocommerce-boleto.php:355 | an order of 49.90 with surcharge `2,95` stores `valor_boleto` as `52,85` |
| BoletoTemplate.StoredData | templates/boleto.php:20 | the order's stored record, or nothing to copy when there is none |
| BoletoTemplate.PageSpec | templates/boleto.php:9-66 | redirect home exactly when `ref` is unset, the order id is 0 or the sanitized bank is empty; otherwise render the sanitized bank and logo |
| BoletoTemplate.BoletoPage | templates/boleto.php:9-66 | the guards, the two `foreach` loops and the eight writes compute `PageSpec` |
| BoletoTemplate.FixedOverride | templates/boleto.php:42-51 | the eight descriptive keys hold the page's texts whatever was merged under them; `demonstrativo2` shows the merged `nosso_numero`; `instrucoes4` is empty; every other key reads as merged |
| BoletoTemplate.MergedGet | templates/boleto.php:33-39 | a key the settings have reads as the sanitized setting; any other stored key reads as the sanitized stored value |
| BoletoTemplate.RenderData | templates/boleto.php:33-51 | on the render path, non-descriptive keys follow settings over stored data, and the order number shown in `demonstrativo2` is read the same way |

## Left out

- WordPress glue is not modelled: hooks, `load_plugin_textdomain`, the fallback notice, page creation (`wcboleto_create_page`) and `wcboleto_assets_url`. None of it computes anything the model states.
- HTML output is not modelled: `admin_options`, the thank-you page and the e-mail markup, and the template's bank layout includes. Only the guards and the dates they print are modelled.
- The bank layouts under banks/ are not part of this model.
- Translation (`__`) is the identity. Field titles and descriptions are named message ids (`BankSchema.Message`); their texts are not part of this model.
- `BankSchema`: keys are the constructors of `FieldKey`, and the distinctness lemmas are stated over them. `KeyName` gives each one's PHP array key. That the 37 key names are pairwise different strings is not proved, because comparing that many string literals is over the per-proof resource budget.
- Time has no clock or time zone. The current time is a parameter, and `date()` is taken in UTC.
- Money is integer cents, so PHP floats and `number_format` rounding are not modelled.
- `Money.RateCents`: reads as 0 any surcharge setting that is not a plain decimal amount with at most two fractional digits. PHP reads some of these differently:
  - a leading `+` (`+2.95` is 2.95 in PHP);
  - whitespace around the number (` 2.95` is 2.95 in PHP);
  - three or more fractional digits (`2.955` is 2.955 in PHP);
  - PHP's leading-numeric reading of other text, and exponent forms;
  - an empty or non-numeric rate, for which PHP 8 raises a TypeError when adding it to the total; the model adds 0.
- `Gateway.DeadlineDays`: `boleto_time` is read with the `(int)` rules. A fractional deadline, which PHP multiplies as a float, and the TypeError PHP 8 raises for a non-numeric one are not modelled.
- `PhpText.IntCast`: `PHP_INT_MAX` saturation, and the float and exponent forms of numeric strings, are not modelled.
- `BoletoData.DueDateMeaning`: stated for a non-negative deadline only. `DueDate` itself accepts any whole number of days.
- `DateText.ParseFormatDmy`: a date prints and reads back only for years 0 to 9999, where `Y` has exactly four digits.
- The identifier filters `wcboleto_our_number` and `wcboleto_document_number` are parameters. The other filters (`wcboleto_data`, `wcboleto_icon`, the message filters) are the identity.
- Order ids are stored as decimal text, where PHP stores an int in the same array.
- `sanitize_text_field`, `sanitize_title`, the order-key lookup, `get_bloginfo`, `home_url` and the shop's e-mail option are parameters.
- Reading settings is not modelled: `get_option` and `init_settings` are not modelled, so the form defaults do not fill in missing settings. A setting that was never saved reads as the empty string.
- The gateway constructors store none of the settings a bank layout reads. woocommerce-boleto.php copies `boleto_logo`, `bank` and the bank and shop data into fields; the template reads those settings directly.
- The init_form_fields of woocommerce-boleto.php (lines 194-294) is not modelled. It is a fixed literal that no logic of the model reads; the class file's version is modelled in full.
- The version branches on `WOOCOMMERCE_VERSION` are not modelled: the model takes WooCommerce 2.0 or later, so the bank is read with `get_option`. The `get_current_bank` fallback, which sanitizes the setting first, is not modelled.
- `process_payment` has side effects that are not modelled: the status note, stock reduction, emptying the cart and the redirect URL. Only the status change and the record are modelled.
