/**
 * The email-account settings catalog: the credential form fields, the
 * supported providers and the connection defaults prefilled for each.
 * Icons, help text and help links are display-only and are not modelled.
 */
module EmailConfig {
  import opened Wrappers
  import opened Sequences

  datatype FieldType = Text | Email | Password

  /** One input of the account form; `name` is the key its value is stored under. */
  datatype RenderField = RenderField(fieldLabel: string, name: string, fieldType: FieldType, placeholder: string)

  const FixedFields: seq<RenderField> := [
    RenderField("Account Name", "email_account_name", Text, "Support / Sales"),
    RenderField("Email ID", "email_id", Email, "johndoe@example.com")
  ]

  const PopularProviderFields: seq<RenderField> :=
    FixedFields + [RenderField("Password", "password", Password, "********")]

  const CustomProviderFields: seq<RenderField> :=
    FixedFields + [
      RenderField("API Key", "api_key", Text, "********"),
      RenderField("API Secret", "api_secret", Password, "********")
    ]

  /** A provider preset; `custom` selects the API key/secret form instead of the password form. */
  datatype EmailService = EmailService(name: string, custom: bool)

  const Services: seq<EmailService> := [
    EmailService("FrappeMail", true),
    EmailService("GMail", false),
    EmailService("Outlook", false),
    EmailService("Sendgrid", false),
    EmailService("SparkPost", false),
    EmailService("Yahoo", false),
    EmailService("Yandex", false)
  ]

  /** A partial settings object: None is a key the preset leaves for the user to fill in. */
  datatype DefaultSettings = DefaultSettings(
    emailServer: Option<string>,
    useSsl: Option<int>,
    smtpServer: Option<string>,
    smtpPort: Option<int>)

  const EmailDefaults: map<string, DefaultSettings> := map[
    "GMail" := DefaultSettings(Some("imap.gmail.com"), Some(1), Some("smtp.gmail.com"), None),
    "Outlook" := DefaultSettings(Some("imap-mail.outlook.com"), Some(1), Some("smtp-mail.outlook.com"), None),
    "Sendgrid" := DefaultSettings(None, None, Some("smtp.sendgrid.net"), Some(587)),
    "SparkPost" := DefaultSettings(None, None, Some("smtp.sparkpostmail.com"), None),
    "Yahoo" := DefaultSettings(Some("imap.mail.yahoo.com"), Some(1), Some("smtp.mail.yahoo.com"), Some(587)),
    "Yandex" := DefaultSettings(Some("imap.yandex.com"), Some(1), Some("smtp.yandex.com"), Some(587))
  ]

  /** The storage keys of a field list, in order. */
  function FieldNames(fields: seq<RenderField>): seq<string> {
    seq(|fields|, i requires 0 <= i < |fields| => fields[i].name)
  }

  /** The provider preset called `name`, if any. */
  function FindService(name: string): (r: Option<EmailService>)
    ensures r.Some? ==> r.value in Services && r.value.name == name
    ensures r.None? <==> forall s :: s in Services ==> s.name != name
  {
    match FindFirst(Services, (s: EmailService) => s.name == name)
    case Some(i) => Some(Services[i])
    case None => None
  }

  /** The defaults prefilled for the provider called `name`, if it has any. */
  function DefaultsFor(name: string): (r: Option<DefaultSettings>)
    ensures r.Some? <==> EmailService(name, false) in Services
    ensures r.Some? ==> r.value == EmailDefaults[name]
  {
    DefaultsCoverPasswordProviders();
    if name in EmailDefaults then Some(EmailDefaults[name]) else None
  }

  /** The credential form a provider's `custom` flag selects. */
  function CredentialFields(service: EmailService): (fields: seq<RenderField>)
    ensures |FixedFields| <= |fields| && fields[..|FixedFields|] == FixedFields
    ensures service.custom ==> |fields| == 4 && fields[2].name == "api_key" && fields[3].name == "api_secret"
    ensures service.custom ==> fields[2].fieldType == Text && fields[3].fieldType == Password
    ensures !service.custom ==> |fields| == 3 && fields[2].name == "password"
    ensures !service.custom ==> fields[2].fieldType == Password
  {
    if service.custom then CustomProviderFields else PopularProviderFields
  }

  lemma FixedFieldsShape()
    ensures |FixedFields| == 2
    ensures FixedFields[0].name == "email_account_name" && FixedFields[0].fieldType == Text
    ensures FixedFields[1].name == "email_id" && FixedFields[1].fieldType == Email
  {
  }

  /** The password form is the fixed fields followed by exactly one password field. */
  lemma PopularProviderFieldsShape()
    ensures |PopularProviderFields| == |FixedFields| + 1
    ensures PopularProviderFields[..|FixedFields|] == FixedFields
    ensures PopularProviderFields[2].name == "password" && PopularProviderFields[2].fieldType == Password
  {
  }

  /** The API form is the fixed fields followed by a text key field and a password secret field. */
  lemma CustomProviderFieldsShape()
    ensures |CustomProviderFields| == |FixedFields| + 2
    ensures CustomProviderFields[..|FixedFields|] == FixedFields
    ensures CustomProviderFields[2].name == "api_key" && CustomProviderFields[2].fieldType == Text
    ensures CustomProviderFields[3].name == "api_secret" && CustomProviderFields[3].fieldType == Password
  {
  }

  /** No field list stores two inputs under one key. */
  lemma FieldNamesDistinct()
    ensures AllDistinct(FieldNames(FixedFields))
    ensures AllDistinct(FieldNames(PopularProviderFields))
    ensures AllDistinct(FieldNames(CustomProviderFields))
  {
  }

  /** Provider names are unique, and FrappeMail is the only preset using the API form. */
  lemma ServicesShape()
    ensures forall i, j :: 0 <= i < j < |Services| ==> Services[i].name != Services[j].name
    ensures forall s :: s in Services ==> (s.custom <==> s.name == "FrappeMail")
    ensures EmailService("FrappeMail", true) in Services
  {
  }

  /** Exactly the password-form providers have defaults; FrappeMail has none. */
  lemma DefaultsCoverPasswordProviders()
    ensures forall s :: s in Services ==> (s.name in EmailDefaults <==> !s.custom)
    ensures forall k :: k in EmailDefaults ==> exists s :: s in Services && s.name == k
    ensures "FrappeMail" !in EmailDefaults
  {
    assert forall k :: k in EmailDefaults ==> k in {"GMail", "Outlook", "Sendgrid", "SparkPost", "Yahoo", "Yandex"};
    assert Services[1].name == "GMail";
    assert Services[2].name == "Outlook";
    assert Services[3].name == "Sendgrid";
    assert Services[4].name == "SparkPost";
    assert Services[5].name == "Yahoo";
    assert Services[6].name == "Yandex";
  }

  lemma SendgridAndSparkPostDefaults()
    ensures DefaultsFor("Sendgrid") == Some(DefaultSettings(None, None, Some("smtp.sendgrid.net"), Some(587)))
    ensures DefaultsFor("SparkPost") == Some(DefaultSettings(None, None, Some("smtp.sparkpostmail.com"), None))
  {
  }

  /** Whenever a preset sets `use_ssl` it sets it to 1, together with an incoming server. */
  lemma SslComesWithIncomingServer()
    ensures forall k :: k in EmailDefaults && EmailDefaults[k].useSsl.Some? ==>
      EmailDefaults[k].useSsl == Some(1) && EmailDefaults[k].emailServer.Some?
  {
  }

  /** Every preset found by name gets the form its flag selects: GMail the password form, FrappeMail the API form. */
  lemma ProviderForms()
    ensures FindService("GMail") == Some(EmailService("GMail", false))
    ensures FindService("FrappeMail") == Some(EmailService("FrappeMail", true))
    ensures CredentialFields(FindService("GMail").value) == PopularProviderFields
    ensures CredentialFields(FindService("FrappeMail").value) == CustomProviderFields
  {
    ServicesShape();
    FindFirstUnique(Services, (s: EmailService) => s.name == "GMail", 1);
    FindFirstUnique(Services, (s: EmailService) => s.name == "FrappeMail", 0);
  }

  /** Every listed provider gets the API form exactly when it is FrappeMail, and the password form otherwise. */
  lemma ServiceForms(s: EmailService)
    requires s in Services
    ensures CredentialFields(s) == (if s.name == "FrappeMail" then CustomProviderFields else PopularProviderFields)
  {
    ServicesShape();
  }

  /** Looking a preset's own name up returns that preset. */
  lemma FindServiceExact(i: nat)
    requires i < |Services|
    ensures FindService(Services[i].name) == Some(Services[i])
  {
    ServicesShape();
    FindFirstUnique(Services, (s: EmailService) => s.name == Services[i].name, i);
  }
}
