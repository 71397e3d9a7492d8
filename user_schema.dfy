/**
 * The User schema of src/api/user/model.js: its enumerations, their defaults and the
 * shape of one stored user document.
 */
module UserSchema {
  import opened Wrappers

  datatype Role = Athleta | Manager
  datatype Contract = Basic | Premium
  datatype Gender = Male | Female | UndefinedGender
  /** The two sub-paths of `providers`. */
  datatype Provider = Facebook | Google

  /** `roles`, also exposed as the static `User.roles`. */
  const Roles: seq<Role> := [Athleta, Manager]

  function RoleName(r: Role): string
  {
    match r
    case Athleta => "athleta"
    case Manager => "manager"
  }

  function ContractName(c: Contract): string
  {
    match c
    case Basic => "basic"
    case Premium => "premium"
  }

  function GenderName(g: Gender): string
  {
    match g
    case Male => "male"
    case Female => "female"
    case UndefinedGender => "undefined"
  }

  function ProviderName(p: Provider): string
  {
    match p
    case Facebook => "facebook"
    case Google => "google"
  }

  /** The `enum: roles` validator: the string names a role, or is rejected. */
  function ParseRole(s: string): (r: Option<Role>)
    ensures r.Some? ==> RoleName(r.value) == s && r.value in Roles
    ensures r.None? ==> forall x: Role :: RoleName(x) != s
  {
    if s == "athleta" then Some(Athleta)
    else if s == "manager" then Some(Manager)
    else None
  }

  /** The `lowercase: true` setter on an ASCII character. */
  function LowerChar(c: char): char
  {
    if 'A' <= c <= 'Z' then (c as int - 'A' as int + 'a' as int) as char else c
  }

  /** The `lowercase: true` setter of `current_contract` and `gender`, on ASCII letters. */
  function Lower(s: string): (r: string)
    ensures |r| == |s| && forall i :: 0 <= i < |s| ==> r[i] == LowerChar(s[i])
  {
    seq(|s|, i requires 0 <= i < |s| => LowerChar(s[i]))
  }

  /**
   * The `enum: ['basic', 'premium']` validator of `current_contract`, applied to the
   * value the lowercase setter stores.
   */
  function ParseContract(s: string): (r: Option<Contract>)
    ensures r.Some? ==> ContractName(r.value) == Lower(s)
    ensures r.None? ==> forall x: Contract :: ContractName(x) != Lower(s)
  {
    var v := Lower(s);
    if v == "basic" then Some(Basic)
    else if v == "premium" then Some(Premium)
    else None
  }

  /**
   * The `enum: ['male', 'female', 'undefined']` validator of `gender`, applied to the
   * value the lowercase setter stores.
   */
  function ParseGender(s: string): (r: Option<Gender>)
    ensures r.Some? ==> GenderName(r.value) == Lower(s)
    ensures r.None? ==> forall x: Gender :: GenderName(x) != Lower(s)
  {
    var v := Lower(s);
    if v == "male" then Some(Male)
    else if v == "female" then Some(Female)
    else if v == "undefined" then Some(UndefinedGender)
    else None
  }

  /** The names are already lower case, so the setter keeps them as they are. */
  lemma NamesAreLowerCase(c: Contract, g: Gender)
    ensures Lower(ContractName(c)) == ContractName(c)
    ensures Lower(GenderName(g)) == GenderName(g)
  {
  }

  /** Upper-case spellings are accepted by the contract and gender paths, but not by `role`. */
  lemma CaseInsensitiveEnums()
    ensures ParseContract("Premium") == Some(Premium)
    ensures ParseGender("MALE") == Some(Male)
    ensures ParseRole("Manager") == None
  {
  }

  /** Every name an enumeration prints is accepted back by its validator as the same value. */
  lemma NamesParse(r: Role, c: Contract, g: Gender)
    ensures ParseRole(RoleName(r)) == Some(r)
    ensures ParseContract(ContractName(c)) == Some(c)
    ensures ParseGender(GenderName(g)) == Some(g)
  {
    NamesAreLowerCase(c, g);
  }

  datatype Activity = Activity(activity: string, points: int)

  /** A `settings` entry; its `Mixed` value is kept as text. */
  datatype Setting = Setting(setting: string, value: string)

  /**
   * One user document. `id` is the ObjectId (`_id`) as text; an unset string path
   * is the empty string, an unset number or date is `None`.
   */
  datatype UserDoc = UserDoc(
    id: string,
    userId: Option<int>,
    sponsorId: Option<string>,
    email: string,
    displayName: string,
    currentContract: Contract,
    gender: Gender,
    registrationIds: seq<string>,
    password: string,
    role: Role,
    picture: string,
    providers: map<Provider, string>,
    activities: seq<Activity>,
    settings: seq<Setting>,
    followers: seq<string>,
    following: seq<string>,
    createdAt: Option<int>)

  /** A document as `new User()` builds it before any path is assigned: the schema defaults. */
  function Blank(id: string): (d: UserDoc)
    ensures d.id == id
    ensures d.currentContract == Basic && d.gender == UndefinedGender && d.role == Athleta
    ensures d.role in Roles
    ensures d.email == "" && d.displayName == "" && d.picture == "" && d.password == ""
    ensures d.registrationIds == [] && d.providers == map[]
  {
    UserDoc(id, None, None, "", "", Basic, UndefinedGender, [], "", Athleta, "",
            map[], [], [], [], [], None)
  }
}
