/**
 * The `pre('save')` hook: a welcome mail for a new document in production, and the
 * password replaced by its bcrypt digest whenever it was modified.
 */
module SaveHook {
  import opened Wrappers
  import opened Oracles
  import opened UserSchema

  /** What the welcome-mail templates are given: name, email and the password as it is before hashing. */
  datatype WelcomeMail = WelcomeMail(name: string, email: string, password: string)

  /**
   * The effect of the hook: the welcome mail it sends, if any, and either the document
   * the save goes on with or the error handed to `next`.
   */
  datatype HookOutcome = HookOutcome(welcome: Option<WelcomeMail>, result: Result<UserDoc, string>)

  /** bcrypt work factor: reduced in the test environment. */
  function Rounds(env: string): (n: nat)
    ensures n == 1 <==> env == "test"
    ensures n == 9 <==> env != "test"
  {
    if env == "test" then 1 else 9
  }

  function PreSave(d: UserDoc, isNew: bool, passwordModified: bool, env: string, hash: Hasher): (out: HookOutcome)
    ensures out.welcome.Some? <==> isNew && env == "production"
    ensures out.welcome.Some? ==> out.welcome.value == WelcomeMail(d.displayName, d.email, d.password)
    ensures !passwordModified ==> out.result == Ok(d)
    ensures passwordModified && hash(d.password, Rounds(env)).Hashed? ==>
              out.result == Ok(d.(password := hash(d.password, Rounds(env)).digest))
    ensures passwordModified && hash(d.password, Rounds(env)).HashFailed? ==>
              out.result == Err(hash(d.password, Rounds(env)).reason)
  {
    var welcome := if isNew && env == "production"
                   then Some(WelcomeMail(d.displayName, d.email, d.password)) else None;
    if !passwordModified then HookOutcome(welcome, Ok(d))
    else match hash(d.password, Rounds(env))
      case Hashed(digest) => HookOutcome(welcome, Ok(d.(password := digest)))
      case HashFailed(reason) => HookOutcome(welcome, Err(reason))
  }

  /** The mail branch and the password branch do not influence each other. */
  lemma BranchesIndependent(d: UserDoc, isNew: bool, passwordModified: bool, env: string, hash: Hasher)
    ensures PreSave(d, isNew, passwordModified, env, hash).welcome
         == PreSave(d, isNew, !passwordModified, env, hash).welcome
    ensures PreSave(d, isNew, passwordModified, env, hash).result
         == PreSave(d, !isNew, passwordModified, env, hash).result
  {
  }

  /** The hook touches no path but `password`, and a modified password is never saved as it was given. */
  lemma PreSaveOnlyHashes(d: UserDoc, isNew: bool, passwordModified: bool, env: string, hash: Hasher)
    requires PreSave(d, isNew, passwordModified, env, hash).result.Ok?
    ensures var saved := PreSave(d, isNew, passwordModified, env, hash).result.value;
            saved == d.(password := saved.password)
    ensures var saved := PreSave(d, isNew, passwordModified, env, hash).result.value;
            passwordModified ==> saved.password == hash(d.password, Rounds(env)).digest
  {
  }

  /** With a `compare` that agrees with `hash`, the saved digest verifies the password that was set. */
  lemma SavedPasswordVerifies(d: UserDoc, isNew: bool, env: string, hash: Hasher, compare: Comparer)
    requires Agree(hash, compare)
    requires PreSave(d, isNew, true, env, hash).result.Ok?
    ensures compare(d.password, PreSave(d, isNew, true, env, hash).result.value.password) == Compared(true)
  {
  }
}
