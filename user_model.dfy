/**
 * The Mongoose model: `User` is one in-memory document (its values, whether it has
 * been stored yet, whether its password was assigned since), and `UserCollection` is
 * the stored collection that `findOne`, `save` and `create` work on. A document read
 * from the collection is a fresh object; `save` writes its values back.
 */
module UserModel {
  import opened Wrappers
  import opened Oracles
  import opened UserSchema
  import opened EmailSetter
  import opened SaveHook
  import opened UserView
  import opened ProviderLogin

  /** What `authenticate` resolves to, or the rejection of `bcrypt.compare`. */
  datatype AuthResult = Authenticated(user: User) | NotAuthenticated | CompareError(reason: string)

  class User {
    var doc: UserDoc
    var isNew: bool
    /** `isModified('password')` */
    var passwordModified: bool

    /** `new User()`: the schema defaults, not yet stored. */
    constructor Create(id: string)
      ensures doc == Blank(id) && isNew && !passwordModified
    {
      doc := Blank(id);
      isNew := true;
      passwordModified := false;
    }

    /** A document as a query hands it out: stored, nothing modified. */
    constructor Hydrate(record: UserDoc)
      ensures doc == record && !isNew && !passwordModified
    {
      doc := record;
      isNew := false;
      passwordModified := false;
    }

    /** `user.email = email`, through the path's setter, which returns the value to store. */
    method SetEmail(email: string, md5: Md5Hex) returns (stored: string)
      modifies this
      ensures stored == email && doc.email == stored
      ensures doc == AssignEmail(old(doc), email, md5)
      ensures isNew == old(isNew) && passwordModified == old(passwordModified)
    {
      var picture := doc.picture;
      if picture == "" || IsGravatar(picture) {
        picture := GravatarUrl(md5(email));
      }
      var displayName := doc.displayName;
      if displayName == "" {
        displayName := LocalPart(email);
      }
      stored := email;
      doc := doc.(picture := picture, displayName := displayName, email := stored);
    }

    /** `user.password = password`: marks the path modified. */
    method SetPassword(password: string)
      modifies this
      ensures doc == old(doc).(password := password)
      ensures passwordModified && isNew == old(isNew)
    {
      doc := doc.(password := password);
      passwordModified := true;
    }

    /** The `pre('save')` hook run on this document. */
    method PreSaveHook(env: string, hash: Hasher) returns (out: HookOutcome)
      modifies this
      ensures out == PreSave(old(doc), old(isNew), old(passwordModified), env, hash)
      ensures out.result.Ok? ==> doc == out.result.value
      ensures out.result.Err? ==> doc == old(doc)
      ensures isNew == old(isNew) && passwordModified == old(passwordModified)
    {
      var welcome: Option<WelcomeMail> := None;
      if isNew && env == "production" {
        welcome := Some(WelcomeMail(doc.displayName, doc.email, doc.password));
      }
      if !passwordModified {
        return HookOutcome(welcome, Ok(doc));
      }
      match hash(doc.password, Rounds(env)) {
        case Hashed(digest) =>
          doc := doc.(password := digest);
          out := HookOutcome(welcome, Ok(doc));
        case HashFailed(reason) =>
          out := HookOutcome(welcome, Err(reason));
      }
    }

    /** `view(full)`: copies each whitelisted path into a fresh object. */
    method View(full: bool) returns (view: map<string, Value>)
      ensures view.Keys == set f | f in ViewFields(full)
      ensures forall f :: f in view ==> view[f] == FieldValue(doc, f)
      ensures "email" in view <==> full
      ensures "password" !in view
    {
      var fields := PublicFields;
      if full {
        fields := fields + PrivateFields;
      }
      view := map[];
      for i := 0 to |fields|
        invariant view.Keys == set j | 0 <= j < i :: fields[j]
        invariant forall f :: f in view ==> view[f] == FieldValue(doc, f)
      {
        view := view[fields[i] := FieldValue(doc, fields[i])];
      }
      assert fields == ViewFields(full);
      assert (set j | 0 <= j < |fields| :: fields[j]) == set f | f in fields;
    }

    /** `authenticate(password)`: this user when `compare` accepts, `false` when it refuses. */
    function Authenticate(password: string, compare: Comparer): (r: AuthResult)
      reads this
      ensures r == Authenticated(this) <==> compare(password, doc.password) == Compared(true)
      ensures r == NotAuthenticated <==> compare(password, doc.password) == Compared(false)
      ensures r.CompareError? <==> compare(password, doc.password).CompareFailed?
    {
      match compare(password, doc.password)
      case Compared(valid) => if valid then Authenticated(this) else NotAuthenticated
      case CompareFailed(reason) => CompareError(reason)
    }
  }

  class UserCollection {
    var records: seq<UserDoc>

    ghost predicate Valid()
      reads this
    {
      UniqueIds(records)
    }

    constructor ()
      ensures Valid() && records == []
    {
      records := [];
    }

    /**
     * `doc.save()`: runs the hook, then inserts a new document or replaces the stored
     * one with the same `_id`; a stored document that has vanished is an error.
     */
    method Save(u: User, env: string, hash: Hasher) returns (out: HookOutcome)
      requires Valid()
      requires u.isNew ==> forall j :: 0 <= j < |records| ==> records[j].id != u.doc.id
      modifies this, u
      ensures Valid()
      ensures var hook := PreSave(old(u.doc), old(u.isNew), old(u.passwordModified), env, hash);
              out.welcome == hook.welcome
      ensures var hook := PreSave(old(u.doc), old(u.isNew), old(u.passwordModified), env, hash);
              hook.result.Err? ==> out == hook && records == old(records) && u.doc == old(u.doc)
      ensures var hook := PreSave(old(u.doc), old(u.isNew), old(u.passwordModified), env, hash);
              hook.result.Ok? && old(u.isNew) ==>
                out == hook && records == old(records) + [hook.result.value]
      ensures var hook := PreSave(old(u.doc), old(u.isNew), old(u.passwordModified), env, hash);
              hook.result.Ok? && !old(u.isNew) ==>
                match FindById(old(records), old(u.doc.id))
                case Some(i) => out == hook && records == old(records)[i := hook.result.value]
                case None => out.result.Err? && records == old(records) && u.doc == hook.result.value
      ensures u.doc.id == old(u.doc.id)
      ensures out.result.Err? ==> u.isNew == old(u.isNew) && u.passwordModified == old(u.passwordModified)
      ensures out.result.Ok? ==> u.doc == out.result.value && !u.isNew && !u.passwordModified
    {
      var wasNew := u.isNew;
      out := u.PreSaveHook(env, hash);
      if out.result.Err? {
        return;
      }
      if wasNew {
        records := records + [u.doc];
      } else {
        match FindById(records, u.doc.id) {
          case Some(i) =>
            records := records[i := u.doc];
          case None =>
            out := HookOutcome(out.welcome, Err("No document found for query"));
            return;
        }
      }
      u.isNew := false;
      u.passwordModified := false;
    }

    /** The branch of `findOrCreateFromProvider` that found stored user `i`. */
    method ReconcileFound(i: nat, provider: Provider, id: string, name: string, picture: string,
                          env: string, hash: Hasher)
      returns (u: User, welcome: Option<WelcomeMail>)
      requires Valid() && i < |records|
      modifies this
      ensures Valid() && fresh(u) && welcome.None?
      ensures records == old(records)[i := Reconciled(old(records)[i], provider, id, name, picture)]
      ensures u.doc == records[i] && !u.isNew && !u.passwordModified
    {
      FindByIdUnique(records, i);
      u := new User.Hydrate(records[i]);
      u.doc := u.doc.(providers := u.doc.providers[provider := id]);
      u.doc := u.doc.(displayName := name);
      u.doc := u.doc.(picture := picture);
      var out := Save(u, env, hash);
      welcome := out.welcome;
    }

    /** The branch of `findOrCreateFromProvider` that found nothing: `User.create(...)`. */
    method RegisterNew(provider: Provider, id: string, email: string, name: string, picture: string,
                       token: string, newId: string, env: string, md5: Md5Hex, hash: Hasher)
      returns (r: Result<User, string>, welcome: Option<WelcomeMail>)
      requires Valid()
      requires forall j :: 0 <= j < |records| ==> records[j].id != newId
      modifies this
      ensures Valid()
      ensures hash(token, Rounds(env)).Hashed? ==>
                && r.Ok? && fresh(r.value)
                && records == old(records)
                     + [Registered(newId, provider, id, email, name, picture, hash(token, Rounds(env)).digest)]
                && r.value.doc == records[|old(records)|]
                && !r.value.isNew && !r.value.passwordModified
      ensures hash(token, Rounds(env)).HashFailed? ==>
                r == Err(hash(token, Rounds(env)).reason) && records == old(records)
      ensures welcome.Some? <==> env == "production"
      ensures welcome.Some? ==> welcome.value == WelcomeMail(name, email, token)
    {
      var u := new User.Create(newId);
      u.doc := u.doc.(providers := map[provider := id]);
      var _ := u.SetEmail(email, md5);
      u.SetPassword(token);
      u.doc := u.doc.(displayName := name);
      u.doc := u.doc.(picture := picture);
      assert u.doc == Registered(newId, provider, id, email, name, picture, token);
      var out := Save(u, env, hash);
      welcome := out.welcome;
      r := if out.result.Ok? then Ok(u) else Err(out.result.error);
    }

    /**
     * `User.findOrCreateFromProvider({ provider, id, email, name, picture })`. `token` is
     * what `randtoken.generate(16)` returned and `newId` the `_id` the driver assigns.
     */
    method FindOrCreateFromProvider(provider: Provider, id: string, email: string, name: string,
                                    picture: string, token: string, newId: string,
                                    env: string, md5: Md5Hex, hash: Hasher)
      returns (r: Result<User, string>, welcome: Option<WelcomeMail>)
      requires Valid()
      requires |token| == 16
      requires forall j :: 0 <= j < |records| ==> records[j].id != newId
      modifies this
      ensures Valid()
      ensures FindOne(old(records), provider, id, email).Some? ==>
                var i := FindOne(old(records), provider, id, email).value;
                && r.Ok? && fresh(r.value) && welcome.None?
                && records == old(records)[i := Reconciled(old(records)[i], provider, id, name, picture)]
                && r.value.doc == records[i]
      ensures FindOne(old(records), provider, id, email).None? && hash(token, Rounds(env)).Hashed? ==>
                && r.Ok? && fresh(r.value)
                && records == old(records)
                     + [Registered(newId, provider, id, email, name, picture, hash(token, Rounds(env)).digest)]
                && r.value.doc == records[|old(records)|]
      ensures FindOne(old(records), provider, id, email).None? && hash(token, Rounds(env)).HashFailed? ==>
                r == Err(hash(token, Rounds(env)).reason) && records == old(records)
      ensures FindOne(old(records), provider, id, email).None? ==>
                (welcome.Some? <==> env == "production")
                && (welcome.Some? ==> welcome.value == WelcomeMail(name, email, token))
      ensures r.Ok? ==> FindOne(records, provider, id, email).Some?
      ensures r.Ok? ==> !r.value.isNew && !r.value.passwordModified
    {
      ghost var digest := if hash(token, Rounds(env)).Hashed? then hash(token, Rounds(env)).digest else "";
      LoginIsRemembered(records, provider, id, email, name, picture, newId, digest);
      var found := FindOne(records, provider, id, email);
      if found.Some? {
        var u;
        u, welcome := ReconcileFound(found.value, provider, id, name, picture, env, hash);
        r := Ok(u);
      } else {
        r, welcome := RegisterNew(provider, id, email, name, picture, token, newId, env, md5, hash);
      }
    }
  }
}
