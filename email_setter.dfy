/**
 * The setter attached to the `email` path: assigning an email may derive a Gravatar
 * picture and a display name from it, and stores the email itself unchanged.
 */
module EmailSetter {
  import opened Wrappers
  import opened Oracles
  import opened UserSchema

  const GravatarHost: string := "https://gravatar.com"

  /** `picture.indexOf(GravatarHost) === 0`: the picture begins with the Gravatar host. */
  predicate IsGravatar(picture: string)
  {
    |GravatarHost| <= |picture| && picture[..|GravatarHost|] == GravatarHost
  }

  /** The identicon URL for an MD5 hex digest. */
  function GravatarUrl(hash: string): string
  {
    GravatarHost + "/avatar/" + hash + "?d=identicon"
  }

  lemma GravatarUrlIsGravatar(hash: string)
    ensures IsGravatar(GravatarUrl(hash))
  {
  }

  /** The characters a JavaScript `.` does not match (without the `s` flag). */
  predicate IsLineTerminator(c: char)
  {
    c == '\n' || c == '\r' || c == '\U{2028}' || c == '\U{2029}'
  }

  /**
   * `/^(.+)@.+$/` matches `s` with its group ending at `k`: at least one character
   * before the `@` at `k`, at least one after it, and no line terminator anywhere.
   */
  predicate SplitsAt(s: string, k: int)
  {
    && 1 <= k < |s| - 1
    && s[k] == '@'
    && forall i | 0 <= i < |s| :: !IsLineTerminator(s[i])
  }

  /** The largest split point below `j`, if any. */
  function LastSplitBelow(s: string, j: nat): (r: Option<nat>)
    requires j <= |s|
    ensures r.Some? ==> r.value < j && SplitsAt(s, r.value)
    ensures r.Some? ==> forall k :: r.value < k < j ==> !SplitsAt(s, k)
    ensures r.None? ==> forall k :: 0 <= k < j ==> !SplitsAt(s, k)
    decreases j
  {
    if j == 0 then None
    else if SplitsAt(s, j - 1) then Some(j - 1)
    else LastSplitBelow(s, j - 1)
  }

  /**
   * `email.replace(/^(.+)@.+$/, '$1')`. The greedy group makes the regex split at the
   * LAST `@` that has a character on both sides; the whole string is the match, so it
   * is replaced by the group. Without a match the string is returned as it is.
   */
  function LocalPart(email: string): (r: string)
    ensures |r| <= |email| && r == email[..|r|]
    ensures (forall k :: !SplitsAt(email, k)) ==> r == email
    ensures (exists k :: SplitsAt(email, k)) ==>
              SplitsAt(email, |r|) && forall k :: |r| < k ==> !SplitsAt(email, k)
    ensures email != "" ==> r != ""
  {
    match LastSplitBelow(email, |email|)
    case Some(k) => email[..k]
    case None => email
  }

  /** When the regex matches, the email is the local part, the `@` and the rest. */
  lemma LocalPartSplitsEmail(email: string)
    requires exists k :: SplitsAt(email, k)
    ensures var lp := LocalPart(email);
            |lp| < |email| - 1 && email == lp + "@" + email[|lp| + 1..]
  {
  }

  /**
   * The document after `doc.email = email`: the email is stored as given; the picture
   * becomes the Gravatar identicon of the email when it was unset or already a Gravatar
   * URL; an unset display name becomes the email's local part; nothing else changes.
   */
  function AssignEmail(d: UserDoc, email: string, md5: Md5Hex): (r: UserDoc)
    ensures r.email == email
    ensures d.picture == "" || IsGravatar(d.picture) ==> r.picture == GravatarUrl(md5(email))
    ensures d.picture != "" && !IsGravatar(d.picture) ==> r.picture == d.picture
    ensures d.displayName == "" ==> r.displayName == LocalPart(email)
    ensures d.displayName != "" ==> r.displayName == d.displayName
    ensures r == d.(email := email, picture := r.picture, displayName := r.displayName)
  {
    var picture := if d.picture == "" || IsGravatar(d.picture) then GravatarUrl(md5(email)) else d.picture;
    var displayName := if d.displayName == "" then LocalPart(email) else d.displayName;
    d.(email := email, picture := picture, displayName := displayName)
  }

  /** Assigning the same email a second time changes nothing. */
  lemma AssignEmailIdempotent(d: UserDoc, email: string, md5: Md5Hex)
    ensures AssignEmail(AssignEmail(d, email, md5), email, md5) == AssignEmail(d, email, md5)
  {
  }

  /** After a non-empty email is assigned, the document has a picture and a display name. */
  lemma AssignEmailFillsProfile(d: UserDoc, email: string, md5: Md5Hex)
    requires email != ""
    ensures AssignEmail(d, email, md5).picture != ""
    ensures AssignEmail(d, email, md5).displayName != ""
  {
  }
}
