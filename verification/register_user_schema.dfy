/** The body contract of the registration endpoint, checked by Ajv against the
    parsed JSON body. Ajv's `email` format is not modelled: it is the
    parameter `isEmail`. No level of the contract restricts additional
    properties. */
module RegisterUserSchema {
  import opened Js
  import HeaderSchema

  /** Ajv's `type: 'string'` with `minLength: 1`. */
  predicate NonEmptyString(v: Value) {
    v.Str? && |v.s| >= 1
  }

  /** Ajv's `type: 'integer'`: a number without a fractional part. */
  predicate IsInteger(v: Value) {
    v.Num? && v.n.Floor as real == v.n
  }

  /** `client_credentials`: an object with a non-empty `email` in email
      format and a non-empty `password`. */
  predicate CredentialsValid(c: Value, isEmail: string -> bool) {
    && c.Obj?
    && "email" in c.fields && NonEmptyString(c.fields["email"]) && isEmail(c.fields["email"].s)
    && "password" in c.fields && NonEmptyString(c.fields["password"])
  }

  /** `client_data`: an object with a non-empty `nickname`, an integer `age`
      of at least 13 and a non-empty all-digit `phone`. */
  predicate ClientDataValid(d: Value) {
    && d.Obj?
    && "nickname" in d.fields && NonEmptyString(d.fields["nickname"])
    && "age" in d.fields && IsInteger(d.fields["age"]) && d.fields["age"].n >= 13.0
    && "phone" in d.fields && NonEmptyString(d.fields["phone"])
    && HeaderSchema.AllDigits(d.fields["phone"].s)
  }

  /** `data`: an object holding both required sub-objects. */
  predicate DataValid(d: Value, isEmail: string -> bool) {
    && d.Obj?
    && "client_credentials" in d.fields && CredentialsValid(d.fields["client_credentials"], isEmail)
    && "client_data" in d.fields && ClientDataValid(d.fields["client_data"])
  }

  /** The whole body contract. */
  predicate BodyValid(body: Value, isEmail: string -> bool) {
    body.Obj? && "data" in body.fields && DataValid(body.fields["data"], isEmail)
  }

  /** `body` with `body.data.client_data.age` replaced by `age`. */
  function WithAge(body: Value, age: Value): (r: Value)
    requires body.Obj? && "data" in body.fields
    requires body.fields["data"].Obj? && "client_data" in body.fields["data"].fields
    requires body.fields["data"].fields["client_data"].Obj?
  {
    var data := body.fields["data"];
    var cd := data.fields["client_data"];
    body.(fields := body.fields["data" := data.(fields := data.fields["client_data" := cd.(fields := cd.fields["age" := age])])])
  }

  /** The age bound is inclusive at 13: in an otherwise valid body, age 13 is
      accepted, age 12 and the non-integer 13.5 are rejected. */
  lemma AgeBoundary(body: Value, isEmail: string -> bool)
    requires BodyValid(body, isEmail)
    ensures BodyValid(WithAge(body, Num(13.0)), isEmail)
    ensures !BodyValid(WithAge(body, Num(12.0)), isEmail)
    ensures !BodyValid(WithAge(body, Num(13.5)), isEmail)
  {
    assert (13.5).Floor == 13;
  }

  /** Extra properties are ignored at every level: adding a property that the
      contract does not name to the body, to `data`, to `client_credentials`
      or to `client_data` keeps a valid body valid. */
  lemma ExtraPropertiesIgnored(body: Value, isEmail: string -> bool, key: string, extra: Value)
    requires BodyValid(body, isEmail)
    requires key !in {"data", "client_credentials", "client_data", "email", "password", "nickname", "age", "phone"}
    ensures BodyValid(body.(fields := body.fields[key := extra]), isEmail)
    ensures var data := body.fields["data"];
      BodyValid(body.(fields := body.fields["data" := data.(fields := data.fields[key := extra])]), isEmail)
    ensures var data := body.fields["data"]; var cc := data.fields["client_credentials"];
      BodyValid(body.(fields := body.fields["data" :=
        data.(fields := data.fields["client_credentials" := cc.(fields := cc.fields[key := extra])])]), isEmail)
    ensures var data := body.fields["data"]; var cd := data.fields["client_data"];
      BodyValid(body.(fields := body.fields["data" :=
        data.(fields := data.fields["client_data" := cd.(fields := cd.fields[key := extra])])]), isEmail)
  {
  }
}
