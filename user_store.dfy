/**
  The invariant the handlers keep on the user collection: every document is
  stored under its own normalised, valid phone (the unique index), and no
  two documents share an id or an email.

  Uniqueness is kept in an indexed form: `ids` maps each id, and `emails`
  each email, to the key of the document that holds it. Two documents with
  the same id or email would need that entry to name both of them, so the
  indexed form implies the pairwise one (`IndexedIsDistinct`).
 */
module UserStore {
  import opened Wrappers
  import opened Text
  import opened UserModel

  ghost predicate UserSound(u: User, key: string, nextId: nat, isEmail: string -> bool) {
    && u.phone == key && PhoneValid(key)
    && u.id < nextId && u.token.None?
    && (u.email.Some? ==> IsNormalEmail(u.email.value) && isEmail(u.email.value))
  }

  /** The document stored under `key` is the one the indexes name for its id and its email. */
  ghost predicate Indexed(u: User, key: string, ids: map<nat, string>, emails: map<string, string>) {
    && u.id in ids && ids[u.id] == key
    && (u.email.Some? ==> u.email.value in emails && emails[u.email.value] == key)
  }

  predicate EmailOwner(users: map<string, User>, email: string, key: string) {
    key in users && users[key].email == Some(email)
  }

  /** `User.findOne({email})` finds a document; when it does not, no document holds the email. */
  predicate HasEmailOwner(users: map<string, User>, email: string): (r: bool)
    ensures !r ==> forall key :: key in users ==> users[key].email != Some(email)
  {
    exists key :: key in users && EmailOwner(users, email, key)
  }

  ghost predicate IdsDistinct(users: map<string, User>) {
    forall p, q :: p in users && q in users && p != q ==> users[p].id != users[q].id
  }

  ghost predicate EmailsDistinct(users: map<string, User>) {
    forall p, q :: p in users && q in users && p != q && users[p].email.Some? ==> users[p].email != users[q].email
  }

  /** Each phone is a key (the unique index) and each document is indexed under its id and email. */
  ghost predicate UsersSound(users: map<string, User>, ids: map<nat, string>, emails: map<string, string>,
                             nextId: nat, isEmail: string -> bool) {
    forall p :: p in users ==> UserSound(users[p], p, nextId, isEmail) && Indexed(users[p], p, ids, emails)
  }

  /** A sound collection shares no id and no email between two documents. */
  lemma IndexedIsDistinct(users: map<string, User>, ids: map<nat, string>, emails: map<string, string>,
                          nextId: nat, isEmail: string -> bool)
    requires UsersSound(users, ids, emails, nextId, isEmail)
    ensures IdsDistinct(users) && EmailsDistinct(users)
  {
    forall p, q | p in users && q in users && p != q
      ensures users[p].id != users[q].id
      ensures users[p].email.Some? ==> users[p].email != users[q].email
    {
      assert Indexed(users[p], p, ids, emails) && Indexed(users[q], q, ids, emails);
    }
  }

  /** With an email in the collection, the document holding it is the one the email index names. */
  lemma EmailOwnerIsIndexed(users: map<string, User>, ids: map<nat, string>, emails: map<string, string>,
                            nextId: nat, isEmail: string -> bool, email: string, key: string)
    requires UsersSound(users, ids, emails, nextId, isEmail) && EmailOwner(users, email, key)
    ensures forall p :: EmailOwner(users, email, p) ==> p == key
  {
    forall p | EmailOwner(users, email, p) ensures p == key {
      assert Indexed(users[p], p, ids, emails) && Indexed(users[key], key, ids, emails);
    }
  }

  /** `User.updateOne({_id: id}, {$set: {email}})`. */
  function SetEmail(users: map<string, User>, id: nat, email: string): (r: map<string, User>)
    ensures r.Keys == users.Keys
    ensures forall p :: p in users ==>
      r[p] == if users[p].id == id then users[p].(email := Some(email)) else users[p]
  {
    map p | p in users :: if users[p].id == id then users[p].(email := Some(email)) else users[p]
  }

  /** The email index after `SetEmail`: the new email names the document with that id, if there is one. */
  ghost function EmailIndex(users: map<string, User>, ids: map<nat, string>, emails: map<string, string>,
                            id: nat, email: string): map<string, string> {
    if id in ids && ids[id] in users && users[ids[id]].id == id then emails[email := ids[id]] else emails
  }

  /** Changes that keep every user's phone, id and email keep each record sound. */
  lemma KeepUsersSound(users: map<string, User>, m: map<string, User>, ids: map<nat, string>,
                       emails: map<string, string>, nextId: nat, isEmail: string -> bool)
    requires UsersSound(users, ids, emails, nextId, isEmail) && m.Keys == users.Keys
    requires forall p :: p in m ==>
      m[p].phone == users[p].phone && m[p].id == users[p].id && m[p].email == users[p].email && m[p].token.None?
    ensures UsersSound(m, ids, emails, nextId, isEmail)
  {
    forall p | p in m ensures UserSound(m[p], p, nextId, isEmail) && Indexed(m[p], p, ids, emails) {
      assert UserSound(users[p], p, nextId, isEmail) && Indexed(users[p], p, ids, emails);
    }
  }

  /** Changing a user's flags or password keeps the collection sound. */
  lemma UpdateKeepsUsersSound(users: map<string, User>, ids: map<nat, string>, emails: map<string, string>,
                              nextId: nat, isEmail: string -> bool, key: string, u: User)
    requires UsersSound(users, ids, emails, nextId, isEmail) && key in users
    requires u.phone == users[key].phone && u.id == users[key].id && u.email == users[key].email && u.token.None?
    ensures UsersSound(users[key := u], ids, emails, nextId, isEmail)
  {
    var m := users[key := u];
    assert m.Keys == users.Keys;
    forall p | p in m
      ensures m[p].phone == users[p].phone && m[p].id == users[p].id && m[p].email == users[p].email
      ensures m[p].token.None?
    {
      if p != key {
        assert UserSound(users[p], p, nextId, isEmail);
      }
    }
    KeepUsersSound(users, m, ids, emails, nextId, isEmail);
  }

  /** `User.create` of a new phone with a fresh id keeps the collection sound. */
  lemma CreateKeepsUsersSound(users: map<string, User>, ids: map<nat, string>, emails: map<string, string>,
                              nextId: nat, isEmail: string -> bool, key: string, u: User)
    requires UsersSound(users, ids, emails, nextId, isEmail) && key !in users
    requires UserSound(u, key, nextId + 1, isEmail) && u.id == nextId && u.email.None?
    ensures UsersSound(users[key := u], ids[nextId := key], emails, nextId + 1, isEmail)
  {
    var m := users[key := u];
    var ids' := ids[nextId := key];
    forall p | p in m ensures UserSound(m[p], p, nextId + 1, isEmail) && Indexed(m[p], p, ids', emails) {
      if p != key {
        assert UserSound(users[p], p, nextId, isEmail) && Indexed(users[p], p, ids, emails);
      }
    }
  }

  /** Attaching an email nobody has, which the validator accepts, keeps the collection sound. */
  lemma SetEmailKeepsUsersSound(users: map<string, User>, ids: map<nat, string>, emails: map<string, string>,
                                nextId: nat, isEmail: string -> bool, id: nat, email: string)
    requires UsersSound(users, ids, emails, nextId, isEmail) && !HasEmailOwner(users, email)
    requires isEmail(email) && IsNormalEmail(email)
    ensures UsersSound(SetEmail(users, id, email), ids, EmailIndex(users, ids, emails, id, email), nextId, isEmail)
  {
    var m := SetEmail(users, id, email);
    var emails' := EmailIndex(users, ids, emails, id, email);
    forall p | p in m ensures UserSound(m[p], p, nextId, isEmail) && Indexed(m[p], p, ids, emails') {
      assert UserSound(users[p], p, nextId, isEmail) && Indexed(users[p], p, ids, emails);
      if users[p].email.Some? {
        assert !EmailOwner(users, email, p);
      }
    }
  }
}
