/**
 * The settings form: every input carries the name of one `ClinicSettings` field,
 * and a change writes the input's value into that field, `{...settings, [name]: value}`.
 */
module Settings {
  import opened Wrappers
  import opened Types

  /** The six fields of the clinic settings. */
  datatype Field = Logo | Name | Cnpj | Phone | Email | Address

  /** The `name` attribute of the input bound to a field. */
  function FieldName(f: Field): string
  {
    match f
    case Logo => "logo"
    case Name => "name"
    case Cnpj => "cnpj"
    case Phone => "phone"
    case Email => "email"
    case Address => "address"
  }

  /** The field an input name designates, if any. */
  function ParseField(name: string): (r: Option<Field>)
    ensures r.Some? ==> FieldName(r.value) == name
  {
    if name == "logo" then Some(Logo)
    else if name == "name" then Some(Name)
    else if name == "cnpj" then Some(Cnpj)
    else if name == "phone" then Some(Phone)
    else if name == "email" then Some(Email)
    else if name == "address" then Some(Address)
    else None
  }

  /** Every field's input name is read back as that field, so no two fields share a name. */
  lemma ParseFieldName(f: Field)
    ensures ParseField(FieldName(f)) == Some(f)
  {
  }

  function Get(s: ClinicSettings, f: Field): string
  {
    match f
    case Logo => s.logo
    case Name => s.name
    case Cnpj => s.cnpj
    case Phone => s.phone
    case Email => s.email
    case Address => s.address
  }

  /** Two settings records are equal when they agree on every field. */
  lemma Extensionality(a: ClinicSettings, b: ClinicSettings)
    requires forall f :: Get(a, f) == Get(b, f)
    ensures a == b
  {
    assert Get(a, Logo) == Get(b, Logo) && Get(a, Name) == Get(b, Name);
    assert Get(a, Cnpj) == Get(b, Cnpj) && Get(a, Phone) == Get(b, Phone);
    assert Get(a, Email) == Get(b, Email) && Get(a, Address) == Get(b, Address);
  }

  /** `{...s, [f]: v}`: field `f` becomes `v`, every other field keeps its value. */
  function WithField(s: ClinicSettings, f: Field, v: string): (r: ClinicSettings)
    ensures Get(r, f) == v
    ensures forall g :: g != f ==> Get(r, g) == Get(s, g)
  {
    match f
    case Logo => s.(logo := v)
    case Name => s.(name := v)
    case Cnpj => s.(cnpj := v)
    case Phone => s.(phone := v)
    case Email => s.(email := v)
    case Address => s.(address := v)
  }

  /** `handleChange`: the record handed to `setSettings` for a change of the input `name`.
      Every input of the form is named after a field; another name would add a property
      that is not part of the settings, which leaves all six fields as they were. */
  function HandleChange(s: ClinicSettings, name: string, value: string): (r: ClinicSettings)
    ensures forall f :: Get(r, f) == if FieldName(f) == name then value else Get(s, f)
  {
    var o := ParseField(name);
    if o.Some? then
      assert forall g :: FieldName(g) == name ==> g == o.value by {
        forall g | FieldName(g) == name ensures g == o.value { ParseFieldName(g); }
      }
      WithField(s, o.value, value)
    else
      assert forall g :: FieldName(g) != name by {
        forall g ensures FieldName(g) != name { ParseFieldName(g); }
      }
      s
  }

  /** Writing the same value twice is writing it once. */
  lemma WithFieldIdempotent(s: ClinicSettings, f: Field, v: string)
    ensures WithField(WithField(s, f, v), f, v) == WithField(s, f, v)
  {
    Extensionality(WithField(WithField(s, f, v), f, v), WithField(s, f, v));
  }

  /** The last write to a field wins. */
  lemma WithFieldOverwrite(s: ClinicSettings, f: Field, v: string, w: string)
    ensures WithField(WithField(s, f, v), f, w) == WithField(s, f, w)
  {
    Extensionality(WithField(WithField(s, f, v), f, w), WithField(s, f, w));
  }

  /** Changes to different fields commute. */
  lemma WithFieldCommute(s: ClinicSettings, f: Field, v: string, g: Field, w: string)
    requires f != g
    ensures WithField(WithField(s, f, v), g, w) == WithField(WithField(s, g, w), f, v)
  {
    Extensionality(WithField(WithField(s, f, v), g, w), WithField(WithField(s, g, w), f, v));
  }
}
