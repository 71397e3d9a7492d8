/**
 * The pure half of `findOrCreateFromProvider`: which stored user the lookup
 * `{ $or: [{ providers.<provider>: id }, { email }] }` selects, and what the
 * reconciled or newly registered user document holds.
 */
module ProviderLogin {
  import opened Wrappers
  import opened UserSchema

  /** The index of the first element satisfying `p`, in collection order. */
  function Find(s: seq<UserDoc>, p: UserDoc -> bool): (r: Option<nat>)
    ensures r.Some? ==> r.value < |s| && p(s[r.value])
    ensures r.Some? ==> forall j :: 0 <= j < r.value ==> !p(s[j])
    ensures r.None? ==> forall j :: 0 <= j < |s| ==> !p(s[j])
  {
    if s == [] then None
    else if p(s[0]) then Some(0)
    else match Find(s[1..], p)
      case Some(i) => Some(i + 1)
      case None => None
  }

  /** The `$or` condition of the lookup. */
  predicate Matches(d: UserDoc, provider: Provider, id: string, email: string)
  {
    (provider in d.providers && d.providers[provider] == id) || d.email == email
  }

  /** `findOne` on the lookup: the first stored user that matches. */
  function FindOne(records: seq<UserDoc>, provider: Provider, id: string, email: string): (r: Option<nat>)
    ensures r.Some? ==> r.value < |records| && Matches(records[r.value], provider, id, email)
    ensures r.Some? ==> forall j :: 0 <= j < r.value ==> !Matches(records[j], provider, id, email)
    ensures r.None? <==> forall j :: 0 <= j < |records| ==> !Matches(records[j], provider, id, email)
  {
    Find(records, (d: UserDoc) => Matches(d, provider, id, email))
  }

  /** `findById` as `save` uses it: the first stored user with the given `_id`. */
  function FindById(records: seq<UserDoc>, id: string): (r: Option<nat>)
    ensures r.Some? ==> r.value < |records| && records[r.value].id == id
    ensures r.None? <==> forall j :: 0 <= j < |records| ==> records[j].id != id
  {
    Find(records, (d: UserDoc) => d.id == id)
  }

  /** No two stored users share an `_id`. */
  ghost predicate UniqueIds(records: seq<UserDoc>)
  {
    forall i, j :: 0 <= i < j < |records| ==> records[i].id != records[j].id
  }

  lemma FindByIdUnique(records: seq<UserDoc>, i: nat)
    requires UniqueIds(records) && i < |records|
    ensures FindById(records, records[i].id) == Some(i)
  {
  }

  /** The found user after its provider id, display name and picture are overwritten. */
  function Reconciled(d: UserDoc, provider: Provider, id: string, name: string, picture: string): (r: UserDoc)
    ensures r == d.(providers := r.providers, displayName := name, picture := picture)
    ensures r.providers.Keys == d.providers.Keys + {provider}
    ensures r.providers[provider] == id
    ensures forall p :: p in d.providers && p != provider ==> r.providers[p] == d.providers[p]
  {
    d.(providers := d.providers[provider := id], displayName := name, picture := picture)
  }

  /** The user created when nothing matches, with `digest` the hash of its random password. */
  function Registered(newId: string, provider: Provider, id: string, email: string, name: string,
                      picture: string, digest: string): (r: UserDoc)
    ensures r.id == newId && r.providers == map[provider := id] && r.email == email
    ensures r.displayName == name && r.picture == picture && r.password == digest
    ensures r == Blank(newId).(providers := r.providers, email := email, password := digest,
                               displayName := name, picture := picture)
  {
    Blank(newId).(providers := map[provider := id], email := email, password := digest,
                  displayName := name, picture := picture)
  }

  /**
   * Once a login has reconciled user `i` or appended a new user, the same lookup
   * finds a user, so a repeated login never creates a second one.
   */
  lemma {:induction false} LoginIsRemembered(records: seq<UserDoc>, provider: Provider, id: string, email: string,
                                             name: string, picture: string, newId: string, digest: string)
    ensures forall i :: 0 <= i < |records| ==>
              FindOne(records[i := Reconciled(records[i], provider, id, name, picture)], provider, id, email).Some?
    ensures FindOne(records + [Registered(newId, provider, id, email, name, picture, digest)], provider, id, email).Some?
  {
    forall i | 0 <= i < |records|
      ensures FindOne(records[i := Reconciled(records[i], provider, id, name, picture)], provider, id, email).Some?
    {
      var updated := records[i := Reconciled(records[i], provider, id, name, picture)];
      assert Matches(updated[i], provider, id, email);
    }
    var grown := records + [Registered(newId, provider, id, email, name, picture, digest)];
    assert Matches(grown[|records|], provider, id, email);
  }
}
