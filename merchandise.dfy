/** The form bodies and urls of the merchandise calls, in the current and
    the earlier version. Each form is signed (see Signature) and the
    signature is sent beside it as the `signature` field. */
module Merchandise {
  import opened Wrappers
  import opened Decimal
  import opened Values
  import opened CallOptions
  import opened ApiUrl
  import opened Signature

  datatype CreateMerchandiseData = CreateMerchandiseData(
    merchantIdentifier: string,
    merchandiseIdentifier: string,
    title: seq<Field>,
    isActive: Option<bool>,
    isPercentage: Option<bool>,
    currency: string,
    priceUser: int,
    priceService: int,
    url: Option<string>,
    imageUrl: Option<string>,
    endTimestamp: Option<int>)

  /** Every field of the update is optional. */
  datatype UpdateMerchandiseData = UpdateMerchandiseData(
    merchantIdentifier: Option<string>,
    merchandiseIdentifier: Option<string>,
    title: Option<seq<Field>>,
    isActive: Option<bool>,
    isPercentage: Option<bool>,
    currency: Option<string>,
    priceUser: Option<int>,
    priceService: Option<int>,
    url: Option<string>,
    imageUrl: Option<string>,
    endTimestamp: Option<int>)

  datatype SaleAlertData = SaleAlertData(
    externalId: string,
    merchantIdentifier: string,
    merchandiseIdentifier: string,
    amount: int,
    currency: string,
    boughtAmount: Option<int>,
    username: Option<string>,
    message: Option<string>)

  /** A merchandise id is a number or a string. */
  datatype MerchandiseId = NumericId(n: int) | TextId(s: string)

  function IdText(id: MerchandiseId): string
  {
    match id
    case NumericId(n) => IntToDecimal(n)
    case TextId(s) => s
  }

  /** The options of a signed call (the form without its signature) and
      the signature sent with it. */
  datatype SignedCall = SignedCall(options: ApiCallOptions, signature: Digest)

  function OptText(o: Option<string>): Value
  {
    if o.Some? then Str(o.value) else Undefined
  }

  function OptNumber(o: Option<int>): Value
  {
    if o.Some? then Num(o.value) else Undefined
  }

  /** `mapOptional(flag, v => v ? '1' : '0')`: absent stays absent. */
  function Flag(o: Option<bool>): (v: Value)
    ensures o == Some(true) <==> v == Str("1")
    ensures o == Some(false) <==> v == Str("0")
    ensures o.None? <==> v == Undefined
  {
    if o.None? then Undefined else if o.value then Str("1") else Str("0")
  }

  /** The earlier create's `flag ? '1' : '0'`: absent means '0'. */
  function LegacyFlag(o: Option<bool>): (v: Value)
    ensures v == Str("1") <==> o == Some(true)
    ensures v == Str("0") <==> o != Some(true)
  {
    if o == Some(true) then Str("1") else Str("0")
  }

  /** The form fields after the two identifiers, shared by create, update
      and create-or-update. */
  function ItemFields(title: Value, isActive: Value, isPercentage: Value, currency: Value, priceUser: Value,
                      priceService: Value, url: Option<string>, imageUrl: Option<string>, endTimestamp: Option<int>): seq<Field>
  {
    [Field("title", title), Field("is_active", isActive), Field("is_percentage", isPercentage),
     Field("currency", currency), Field("price_user", priceUser), Field("price_service", priceService),
     Field("url", OptText(url)), Field("img_url", OptText(imageUrl)), Field("end_at_ts", OptNumber(endTimestamp))]
  }

  function CreateForm(d: CreateMerchandiseData): seq<Field>
  {
    [Field("merchant_identifier", Str(d.merchantIdentifier)), Field("merchandise_identifier", Str(d.merchandiseIdentifier))]
      + ItemFields(Obj(d.title), Flag(d.isActive), Flag(d.isPercentage), Str(d.currency), Num(d.priceUser),
                   Num(d.priceService), d.url, d.imageUrl, d.endTimestamp)
  }

  function UpdateForm(d: UpdateMerchandiseData): seq<Field>
  {
    [Field("merchant_identifier", OptText(d.merchantIdentifier)), Field("merchandise_identifier", OptText(d.merchandiseIdentifier))]
      + ItemFields(if d.title.Some? then Obj(d.title.value) else Undefined, Flag(d.isActive), Flag(d.isPercentage),
                   OptText(d.currency), OptNumber(d.priceUser), OptNumber(d.priceService), d.url, d.imageUrl, d.endTimestamp)
  }

  function SaleForm(d: SaleAlertData): seq<Field>
  {
    [Field("external_id", Str(d.externalId)), Field("merchant_identifier", Str(d.merchantIdentifier)),
     Field("merchandise_identifier", Str(d.merchandiseIdentifier)), Field("amount", Num(d.amount)),
     Field("currency", Str(d.currency)), Field("boughtAmount", OptNumber(d.boughtAmount)),
     Field("username", OptText(d.username)), Field("message", OptText(d.message))]
  }

  /** A signed POST/PUT of `form` to `url`, signed before the signature
      field is added. */
  function SignedFormCall(url: string, m: HttpMethod, form: seq<Field>, secret: string): (c: SignedCall)
    ensures c.options.url == url && c.options.httpMethod == Some(m) && c.options.callType == Some(Api)
    ensures c.options.formBody == Some(Obj(form)) && c.options.scope.None? && c.options.auth.None?
    ensures c.signature == CreateSignature(form, secret)
  {
    SignedCall(ApiCallOptions(url, Some(Api), Some(m), None, None, Some(Obj(form)), None, None),
               CreateSignature(form, secret))
  }

  /** createMerchandise: POST 'merchandise'; omitted flags are left out. */
  function CreateMerchandise(d: CreateMerchandiseData, secret: string): (c: SignedCall)
    ensures c.options.url == "merchandise" && c.options.httpMethod == Some(POST)
    ensures c.options.formBody == Some(Obj(CreateForm(d)))
    ensures Lookup(CreateForm(d), "is_active") == Flag(d.isActive)
    ensures Lookup(CreateForm(d), "is_percentage") == Flag(d.isPercentage)
    ensures Lookup(CreateForm(d), "img_url") == OptText(d.imageUrl)
    ensures Lookup(CreateForm(d), "end_at_ts") == OptNumber(d.endTimestamp)
    ensures "signature" !in Keys(CreateForm(d))
    ensures c.signature == CreateSignature(CreateForm(d), secret)
  {
    FormFacts(CreateForm(d));
    SignedFormCall("merchandise", POST, CreateForm(d), secret)
  }

  /** updateMerchandise: PUT 'merchandise/{id}'. */
  function UpdateMerchandise(id: MerchandiseId, d: UpdateMerchandiseData, secret: string): (c: SignedCall)
    ensures c.options.url == "merchandise/" + IdText(id) && c.options.httpMethod == Some(PUT)
    ensures c.options.formBody == Some(Obj(UpdateForm(d)))
    ensures Lookup(UpdateForm(d), "is_active") == Flag(d.isActive)
    ensures Lookup(UpdateForm(d), "is_percentage") == Flag(d.isPercentage)
    ensures "signature" !in Keys(UpdateForm(d))
    ensures c.signature == CreateSignature(UpdateForm(d), secret)
  {
    FormFacts(UpdateForm(d));
    SignedFormCall("merchandise/" + IdText(id), PUT, UpdateForm(d), secret)
  }

  /** The form of createOrUpdateMerchandise: the item fields alone. */
  function CreateOrUpdateForm(d: CreateMerchandiseData): seq<Field>
  {
    ItemFields(Obj(d.title), Flag(d.isActive), Flag(d.isPercentage), Str(d.currency), Num(d.priceUser),
               Num(d.priceService), d.url, d.imageUrl, d.endTimestamp)
  }

  /** The keys createOrUpdateMerchandise leaves out of its form. */
  const OmittedKeys := ["merchant_identifier", "merchandise_identifier", "signature"]

  /** The create-or-update form is the create form without the two
      identifiers, and has no key that names them or the signature. */
  lemma CreateOrUpdateFormFacts(d: CreateMerchandiseData, n: nat)
    requires n < |OmittedKeys|
    ensures CreateOrUpdateForm(d) == CreateForm(d)[2..]
    ensures OmittedKeys[n] !in Keys(CreateOrUpdateForm(d))
  {
    KeyApart(CreateOrUpdateForm(d), OmittedKeys[n]);
  }

  /** createOrUpdateMerchandise: POST to the url naming both identifiers,
      which the form then leaves out. */
  function CreateOrUpdateMerchandise(d: CreateMerchandiseData, secret: string): (c: SignedCall)
    ensures c.options.url == "merchandise/" + d.merchantIdentifier + "/" + d.merchandiseIdentifier
    ensures c.options.httpMethod == Some(POST)
    ensures c.options.formBody == Some(Obj(CreateOrUpdateForm(d)))
    ensures c.signature == CreateSignature(CreateOrUpdateForm(d), secret)
  {
    SignedFormCall("merchandise/" + d.merchantIdentifier + "/" + d.merchandiseIdentifier, POST, CreateOrUpdateForm(d), secret)
  }

  /** sendSaleAlert: POST 'merchandise_sale'; the count travels as
      'boughtAmount'. */
  function SendSaleAlert(d: SaleAlertData, secret: string): (c: SignedCall)
    ensures c.options.url == "merchandise_sale" && c.options.httpMethod == Some(POST)
    ensures c.options.formBody == Some(Obj(SaleForm(d)))
    ensures Lookup(SaleForm(d), "boughtAmount") == OptNumber(d.boughtAmount)
    ensures "bought_amount" !in Keys(SaleForm(d)) && "signature" !in Keys(SaleForm(d))
    ensures c.signature == CreateSignature(SaleForm(d), secret)
  {
    SaleFormFacts(d);
    SignedFormCall("merchandise_sale", POST, SaleForm(d), secret)
  }

  /** The keys of a create or update form, in order. */
  predicate IsItemForm(form: seq<Field>)
  {
    |form| == 11 &&
    form[0].key == "merchant_identifier" && form[1].key == "merchandise_identifier" &&
    form[2].key == "title" && form[3].key == "is_active" && form[4].key == "is_percentage" &&
    form[5].key == "currency" && form[6].key == "price_user" && form[7].key == "price_service" &&
    form[8].key == "url" && form[9].key == "img_url" && form[10].key == "end_at_ts"
  }

  /** The flags, the image url and the end time are not repeated later in
      a create or update form, so each reads back its own field. */
  lemma ItemFieldReadsBack(form: seq<Field>, i: nat)
    requires IsItemForm(form) && (i == 3 || i == 4 || i == 9 || i == 10)
    ensures Lookup(form, form[i].key) == form[i].value
  {
    LookupLastOccurrence(form, i);
  }

  /** The flag and optional lookups of a create or update form, which has
      no signature field of its own. */
  lemma FormFacts(form: seq<Field>)
    requires IsItemForm(form)
    ensures "signature" !in Keys(form)
    ensures Lookup(form, "is_active") == form[3].value && Lookup(form, "is_percentage") == form[4].value
    ensures Lookup(form, "img_url") == form[9].value && Lookup(form, "end_at_ts") == form[10].value
  {
    KeyApart(form, "signature");
    ItemFieldReadsBack(form, 3);
    ItemFieldReadsBack(form, 4);
    ItemFieldReadsBack(form, 9);
    ItemFieldReadsBack(form, 10);
  }

  /** The sale form reads back the count under 'boughtAmount' and has
      neither a snake-case count nor a signature field. */
  lemma SaleFormFacts(d: SaleAlertData)
    ensures Lookup(SaleForm(d), "boughtAmount") == OptNumber(d.boughtAmount)
    ensures "bought_amount" !in Keys(SaleForm(d)) && "signature" !in Keys(SaleForm(d))
  {
    KeyApart(SaleForm(d), "bought_amount");
    KeyApart(SaleForm(d), "signature");
    LookupLastOccurrence(SaleForm(d), 5);
  }

  /** An omitted flag is not part of what is signed: the signature equals
      that of the form without the field. */
  lemma OmittedFlagUnsigned(d: CreateMerchandiseData, secret: string)
    requires d.isActive.None?
    ensures CreateMerchandise(d, secret).signature ==
      CreateSignature(CreateForm(d)[..3] + CreateForm(d)[4..], secret)
  {
    var form := CreateForm(d);
    assert form[3] == Field("is_active", Undefined);
    assert form == form[..3] + [Field("is_active", Undefined)] + form[4..];
    UndefinedFieldIgnored(form[..3], form[4..], "is_active", secret);
  }

  // ---- the earlier version

  /** The earlier createMerchandise: the same call, but an omitted flag is
      sent (and signed) as '0'. */
  function LegacyCreateForm(d: CreateMerchandiseData): seq<Field>
  {
    [Field("merchant_identifier", Str(d.merchantIdentifier)), Field("merchandise_identifier", Str(d.merchandiseIdentifier))]
      + ItemFields(Obj(d.title), LegacyFlag(d.isActive), LegacyFlag(d.isPercentage), Str(d.currency), Num(d.priceUser),
                   Num(d.priceService), d.url, d.imageUrl, d.endTimestamp)
  }

  function LegacyCreateMerchandise(d: CreateMerchandiseData, secret: string): (c: SignedCall)
    ensures c.options.url == "merchandise" && c.options.httpMethod == Some(POST)
    ensures c.options.formBody == Some(Obj(LegacyCreateForm(d)))
    ensures Lookup(LegacyCreateForm(d), "is_active") == LegacyFlag(d.isActive)
    ensures Lookup(LegacyCreateForm(d), "is_percentage") == LegacyFlag(d.isPercentage)
    ensures c.signature == CreateSignature(LegacyCreateForm(d), secret)
  {
    FormFacts(LegacyCreateForm(d));
    SignedFormCall("merchandise", POST, LegacyCreateForm(d), secret)
  }

  /** The two versions of create differ exactly on an omitted flag, which
      the earlier one sends as '0'. */
  lemma CreateVersionsAgreeOnGivenFlags(d: CreateMerchandiseData)
    ensures d.isActive.Some? && d.isPercentage.Some? ==> LegacyCreateForm(d) == CreateForm(d)
    ensures d.isActive.None? ==>
      Lookup(LegacyCreateForm(d), "is_active") == Str("0") && Lookup(CreateForm(d), "is_active") == Undefined
  {
    if d.isActive.None? {
      ItemFieldReadsBack(CreateForm(d), 3);
      ItemFieldReadsBack(LegacyCreateForm(d), 3);
    }
  }

  /** The earlier updateMerchandise is the current one. */
  function LegacyUpdateMerchandise(id: MerchandiseId, d: UpdateMerchandiseData, secret: string): (c: SignedCall)
    ensures c == UpdateMerchandise(id, d, secret)
  {
    SignedFormCall("merchandise/" + IdText(id), PUT, UpdateForm(d), secret)
  }

  /** The earlier sendSaleAlert, as written: the url is ''. */
  function LegacySendSaleAlert(d: SaleAlertData, secret: string): (c: SignedCall)
    ensures c.options.url == "" && c.options.httpMethod == Some(POST)
    ensures c.options.formBody == Some(Obj(SaleForm(d)))
    ensures c.signature == CreateSignature(SaleForm(d), secret)
  {
    SignedFormCall("", POST, SaleForm(d), secret)
  }

  /** The earlier sale alert is posted to the bare API root, not to the
      sale endpoint the current version uses. */
  lemma LegacySaleAlertPostsToApiRoot(d: SaleAlertData, secret: string)
    ensures GetApiUrl(LegacySendSaleAlert(d, secret).options.url, Api) == ApiBase
    ensures GetApiUrl(SendSaleAlert(d, secret).options.url, Api) == ApiBase + "merchandise_sale"
    ensures GetApiUrl(LegacySendSaleAlert(d, secret).options.url, Api) != GetApiUrl(SendSaleAlert(d, secret).options.url, Api)
  {
    assert |ApiBase + "merchandise_sale"| > |ApiBase|;
  }
}
