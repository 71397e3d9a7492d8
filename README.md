# User model of the confrontos backend, in Dafny

This project models the User entity of the backend (`src/api/user/model.js`). The entity is a
Mongoose schema for a sports/social platform. The model covers:

- the schema's enumerations and defaults: role, contract tier and gender;
- the `email` path setter, which derives a Gravatar picture and a display name;
- the `pre('save')` hook, which sends a welcome mail and hashes the password;
- the `view(full)` whitelist projection;
- `authenticate`;
- the static `findOrCreateFromProvider`, the federated-login upsert.

Layout:

- `wrappers.dfy`: `Option` and `Result`.
- `oracles.dfy`: the foreign calls as parameter types. These are the MD5 hex digest, `bcrypt.hash`
  and `bcrypt.compare`. Each library promise settles to a value or to a failure.
- `user_schema.dfy`: the enumerations, their validators, and the stored document `UserDoc` with its
  schema defaults.
- `email_setter.dfy`: the setter as a function on documents, including the exact meaning of
  `email.replace(/^(.+)@.+$/, '$1')`.
- `save_hook.dfy`: the pre-save hook as a function on documents.
- `user_view.dfy`: the values a path can hold, `doc[field]`, and the whitelists.
- `provider_login.dfy`: the lookup `findOne({ $or: [...] })` and the documents that the upsert writes.
- `user_model.dfy`: the imperative shell. `User` is one in-memory Mongoose document: its values, `isNew`,
  and whether `password` was modified. `UserCollection` is the stored collection. Each method is proved
  against the functions above.

Modelling choices:

- `findOne` picks the FIRST matching document in collection order (`ProviderLogin.FindOne`).
- A document read by a query is a fresh object, built from the stored record (`User.Hydrate`).
  `save` runs the hook. Then it appends a new document, or it replaces the stored record that has the
  same `_id`. A record that has vanished gives Mongoose's "No document found" error.
- An unset string path is the empty string. The setter's `!this.picture` and `!this.display_name`
  are therefore tests for `""`.
- The welcome mail is recorded as a value. It holds the name, the email and the password as they are
  before hashing, which is what the templates receive.
- The regex follows the code. A JavaScript `.` does not match a line terminator. So an email that
  contains `\n`, `\r`, U+2028 or U+2029 anywhere is not matched, and it is kept whole as the
  display name. Otherwise the greedy group splits at the last `@` that has a character on each side.
- When `findOrCreateFromProvider` creates a user, the email setter runs and derives a picture and a
  display name. The explicit `display_name` and `picture` that follow overwrite both, because the
  schema puts `email` before them. The model performs the same steps and proves the final document.

## Model

| member | source | states |
|---|---|---|
| `UserSchema.ParseRole` | src/api/user/model.js:59-63 | a string is accepted as a role exactly when it is the name of one, and every accepted role is in `roles` |
| `UserSchema.Lower` | src/api/user/model.js:40 | the `lowercase: true` setter maps every ASCII capital to its small letter and keeps every other character, keeping the length |
| `UserSchema.ParseContract` | src/api/user/model.js:36-42 | `current_contract` accepts a string exactly when its lower-cased form is `basic` or `premium` |
| `UserSchema.ParseGender` | src/api/user/model.js:43-49 | `gender` accepts a string exactly when its lower-cased form is `male`, `female` or `undefined` |
| `UserSchema.NamesAreLowerCase` | src/api/user/model.js:39-47 | the enum names are already lower case, so the lowercase setter keeps them as they are |
| `UserSchema.CaseInsensitiveEnums` | src/api/user/model.js:36-63 | `Premium` is accepted as a contract and `MALE` as a gender, but `Manager` is rejected as a role, which has no lowercase setter |
| `UserSchema.NamesParse` | src/api/user/model.js:11 | every enumeration value's name is accepted back as that value |
| `UserSchema.Blank` | src/api/user/model.js:36-63 | a new document has the defaults `basic`, `undefined`, `athleta` and no registration ids, and its string paths are unset |
| `EmailSetter.GravatarUrlIsGravatar` | src/api/user/model.js:108-110 | the URL that the setter builds passes the setter's own "already Gravatar" test |
| `EmailSetter.LastSplitBelow` | src/api/user/model.js:114 | finds the largest position below a bound at which the regex can split, or reports that there is none |
| `EmailSetter.LocalPart` | src/api/user/model.js:114 | the result is the prefix before the last `@` with a character on both sides and no line terminator in the email, else the whole email; it is empty only for an empty email |
| `EmailSetter.LocalPartSplitsEmail` | src/api/user/model.js:114 | when the regex matches, the email is the local part, then `@`, then a non-empty rest |
| `EmailSetter.AssignEmail` | src/api/user/model.js:107-118 | the email is stored as given; an unset or Gravatar picture becomes the identicon URL of `Md5Hex(email)`, and any other picture is kept; an unset display name becomes the local part, and a set one is kept; no other path changes |
| `EmailSetter.AssignEmailIdempotent` | src/api/user/model.js:107-118 | assigning the same email twice gives the same document as assigning it once |
| `EmailSetter.AssignEmailFillsProfile` | src/api/user/model.js:107-118 | after a non-empty email is assigned, both picture and display name are set |
| `SaveHook.Rounds` | src/api/user/model.js:138 | the work factor is 1 exactly in `test` and 9 in every other environment |
| `SaveHook.PreSave` | src/api/user/model.js:120-144 | a welcome mail is sent exactly for a new document in `production`, and it carries the pre-hash values; an unmodified password lets the save go on unchanged; a modified one is replaced by `hash(password, Rounds(env))`; a hash failure is handed on as the error |
| `SaveHook.BranchesIndependent` | src/api/user/model.js:120-144 | the mail does not depend on whether the password was modified, and the saved document does not depend on `isNew` |
| `SaveHook.PreSaveOnlyHashes` | src/api/user/model.js:135-143 | a successful hook changes only `password`, and a modified password is saved as its digest |
| `SaveHook.SavedPasswordVerifies` | src/api/user/model.js:140-142 | when `compare` agrees with `hash`, the saved digest verifies the password that was set |
| `UserView.ViewFields` | src/api/user/model.js:149-163 | the whitelist is the 4 public paths, plus the 8 private ones when `full` is set; `email`, `role` and `activities` are listed exactly when `full` is set; `password`, `providers` and `followers` are never listed |
| `UserModel.User.View` | src/api/user/model.js:147-168 | the view's keys are exactly the whitelist, and each value is the document's value for that path; `email` is present exactly when `full` is set, and `password` never is |
| `UserModel.User.Authenticate` | src/api/user/model.js:170-172 | resolves to the user itself exactly when `compare` accepts, to `false` exactly when it refuses, and to the error exactly when `compare` fails |
| `UserModel.User.SetEmail` | src/api/user/model.js:107-118 | the setter returns the email, which is stored; the document becomes `AssignEmail` of the old one; the save flags are untouched |
| `UserModel.User.SetPassword` | src/api/user/model.js:135 | assigning the password marks it modified for the hook |
| `UserModel.User.PreSaveHook` | src/api/user/model.js:120-144 | the document's outcome is `PreSave` of its old state; on failure the document keeps its plaintext password |
| `UserModel.User.Create` | src/api/user/model.js:36-63 | a new document holds the schema defaults and is not yet stored |
| `UserModel.User.Hydrate` | src/api/user/model.js:181 | a document handed out by a query equals the stored record, is stored, and is unmodified |
| `UserModel.UserCollection.Save` | src/api/user/model.js:186-196 | the hook runs first; a new document is appended and an existing one replaces its record; afterwards the document is stored and unmodified. A hook failure stores nothing and leaves the document as it was, with its plaintext password. A vanished record stores nothing and leaves the hashed document in memory. After any failure `isNew` and the password flag are unchanged. `_id`s stay unique |
| `ProviderLogin.Find` | src/api/user/model.js:181 | the first index that satisfies the condition, or none when no element does |
| `ProviderLogin.FindOne` | src/api/user/model.js:181 | the first stored user whose provider id for `provider` is `id` or whose email is `email`; none exactly when no user matches |
| `ProviderLogin.FindById` | src/api/user/model.js:186 | the stored record with the document's `_id`; none exactly when no record has it |
| `ProviderLogin.FindByIdUnique` | src/api/user/model.js:186 | with unique `_id`s, the record that `save` replaces is the one the document was read from |
| `ProviderLogin.Reconciled` | src/api/user/model.js:183-185 | only `providers[provider]`, `display_name` and `picture` change; the other provider ids are kept |
| `ProviderLogin.Registered` | src/api/user/model.js:188-196 | a new user holds the defaults, `providers = {provider: id}`, the email, the name, the picture and the password digest |
| `ProviderLogin.LoginIsRemembered` | src/api/user/model.js:178-199 | after either branch the same lookup finds a user, so a second login with the same identity creates nothing |
| `UserModel.UserCollection.ReconcileFound` | src/api/user/model.js:182-186 | the found user is overwritten in place; the collection size is unchanged; no mail is sent; the save cannot fail |
| `UserModel.UserCollection.RegisterNew` | src/api/user/model.js:187-197 | exactly one user is appended, with the digest of the random password, and the returned fresh user is stored and unmodified; a hash failure adds nothing; the mail is sent exactly in `production`, with the plaintext token |
| `UserModel.UserCollection.FindOrCreateFromProvider` | src/api/user/model.js:178-199 | when a user matches, that user is reconciled and the collection keeps its size; otherwise exactly one new user is created, or nothing when hashing fails; on success the returned user is a fresh object, stored and unmodified, and the identity is found by the next lookup |

## Left out

- `src/api/invitation/controller.js` is not part of this model. It only maps requests onto queries, population and response helpers that are defined elsewhere.
- MD5, `bcrypt.hash`, `bcrypt.compare` and `randtoken.generate` are not modelled. They are parameters of the operations that use them. The random token is a parameter of length 16. The new document's `_id` is a parameter that differs from every stored `_id`.
- `sendMail` and the mail templates are outbound I/O. Only the mail that would be sent is recorded, as a value.
- The `mongoose-keywords` plugin and the `mongoose-sequence` numbering of `user_id` are not modelled. `userId` is never assigned by the model.
- Schema enforcement other than the `enum` validators is not modelled. This covers the email `match`, `required`, `unique`, `minlength`, `trim`, and the `lowercase` setter of `email`, along with the order in which they run relative to the email setter. The setter sees the email exactly as it is assigned.
- UserSchema.Lower: folds only the ASCII capitals. JavaScript's `toLowerCase` also folds other letters; the model does not.
- UserModel.UserCollection.Save: writes the whole document back, so when two copies of one record are changed on different paths and saved in turn, the last save wins. Mongoose writes only the modified paths and would keep both changes. `findOrCreateFromProvider` reads, changes and saves within one step, so its outcome is the same either way.
- The `created_at`/`updated_at` timestamps are not modelled. `createdAt` is never set by the model.
- The `toJSON` transform and promise sequencing are not modelled. Each operation is one sequential step, and the mail is sent before the password branch, as in the code.
- Provider names other than `facebook` and `google`, the two sub-paths of `providers`, are not modelled.
- A `settings` value of type `Mixed` is modelled as text.
- `isModified` is tracked for `password` only. Assigning a password marks it modified even when the value is unchanged.
- A `name` or `picture` argument that is `undefined` is modelled as the empty string. Mongoose may keep the setter-derived value in that case; the model does not capture this.
- "A stored password never equals its plaintext" is not stated, because the hash function is abstract. `SaveHook.PreSaveOnlyHashes` states only that a modified password is saved as its digest.
