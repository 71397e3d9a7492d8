/** The `view(full)` projection: a fixed whitelist of document paths. */
module UserView {
  import opened Wrappers
  import opened UserSchema

  /** The JavaScript values a path of a user document can hold; `Absent` is `undefined`. */
  datatype Value =
    | Absent
    | Num(n: int)
    | Text(s: string)
    | Texts(items: seq<string>)
    | ProviderIds(ids: map<Provider, string>)
    | Activities(activities: seq<Activity>)
    | Settings(settings: seq<Setting>)
    | Timestamp(t: int)

  /** `doc[field]`: the value of a path, the virtual `id`, or `undefined`. */
  function FieldValue(d: UserDoc, field: string): Value
  {
    match field
    case "id" => Text(d.id)
    case "user_id" => (match d.userId case Some(n) => Num(n) case None => Absent)
    case "sponsor_id" => (match d.sponsorId case Some(s) => Text(s) case None => Absent)
    case "email" => Text(d.email)
    case "display_name" => Text(d.displayName)
    case "current_contract" => Text(ContractName(d.currentContract))
    case "gender" => Text(GenderName(d.gender))
    case "registration_ids" => Texts(d.registrationIds)
    case "password" => Text(d.password)
    case "role" => Text(RoleName(d.role))
    case "picture" => Text(d.picture)
    case "providers" => ProviderIds(d.providers)
    case "activities" => Activities(d.activities)
    case "settings" => Settings(d.settings)
    case "followers" => Texts(d.followers)
    case "following" => Texts(d.following)
    case "created_at" => (match d.createdAt case Some(t) => Timestamp(t) case None => Absent)
    case _ => Absent
  }

  const PublicFields: seq<string> := ["user_id", "display_name", "picture", "gender"]

  const PrivateFields: seq<string> :=
    ["id", "email", "role", "registration_ids", "current_contract", "activities", "settings", "created_at"]

  /** The whitelist `view` copies: the public paths, and with `full` the eight private ones after them. */
  function ViewFields(full: bool): (fields: seq<string>)
    ensures forall f :: f in fields <==> f in PublicFields || (full && f in PrivateFields)
    ensures |fields| == if full then 12 else 4
    ensures ("email" in fields <==> full) && ("role" in fields <==> full) && ("activities" in fields <==> full)
    ensures "password" !in fields && "providers" !in fields && "followers" !in fields
  {
    if full then PublicFields + PrivateFields else PublicFields
  }
}
