/**
 * The Profile API: a FastAPI service over one MongoDB collection, `users`,
 * holding one document per Telegram user keyed by `_id`.
 *
 * The collection is a class whose one field maps `_id` to a document. Its two
 * driver operations, `find_one({"_id": id})` and
 * `update_one({"_id": id}, {"$set": ...}, upsert)`, are given the meaning the
 * endpoints rely on; the endpoints are methods over a collection.
 */
module ProfileApi {
  import opened Wrappers

  /** A nullable text value, `str | None`. */
  type Text = Option<string>

  /**
   * One field of a request body or of a stored document. In a request,
   * Absent is a field the client did not send (pydantic calls it unset) and
   * Present(None) is one sent as JSON null. In a document, Absent is a key
   * the document does not have.
   */
  datatype Slot<+T> = Absent | Present(value: T)

  /** The body of `POST /users` (class UserData, used as a request). */
  datatype UserData = UserData(
    telegramId: int,
    username: Slot<Text>,
    firstName: Slot<Text>,
    lastName: Slot<Text>,
    languageCode: Slot<Text>)

  /** The body of `PATCH /users/{id}/language`. */
  datatype UserLanguageUpdate = UserLanguageUpdate(languageCode: string)

  /** The reply of `GET /users/{id}` (class UserData, used as a response model). */
  datatype UserProfile = UserProfile(
    telegramId: int,
    username: Text,
    firstName: Text,
    lastName: Text,
    languageCode: Text)

  /** A stored document: its `_id` and the record fields it has. */
  datatype Document = Document(
    id: int,
    telegramId: Slot<int>,
    username: Slot<Text>,
    firstName: Slot<Text>,
    lastName: Slot<Text>,
    languageCode: Slot<Text>)

  /**
   * The `$set` document of an update: the fields to overwrite. Setting `_id`
   * is not represented: the one update that sets it sets it to the id it
   * filters on, which changes nothing.
   */
  datatype SetFields = SetFields(
    telegramId: Slot<int>,
    username: Slot<Text>,
    firstName: Slot<Text>,
    lastName: Slot<Text>,
    languageCode: Slot<Text>)

  /** The whole collection: `_id` to document. */
  type Store = map<int, Document>

  datatype Error = NotFound(status: int, detail: string)

  datatype CreateReply = CreateReply(message: string, telegramId: int)

  datatype LanguageReply = LanguageReply(message: string)

  const NotFoundStatus := 404
  const NotFoundDetail := "Пользователь не найден"
  const CreatedMessage := "Пользователь создан или обновлен"
  const LanguageUpdatedMessage := "Попытка обновления языка пользователя завершена"

  /** Every document is stored under its own `_id`. */
  ghost predicate Keyed(m: Store)
  {
    forall k :: k in m ==> m[k].id == k
  }

  // ---------------------------------------------------------------------
  // Store semantics
  // ---------------------------------------------------------------------

  /** `$set` on one field: a field named in the update replaces the stored one. */
  function Overwrite<T>(current: Slot<T>, update: Slot<T>): (r: Slot<T>)
    ensures update.Present? ==> r == update
    ensures update.Absent? ==> r == current
  {
    if update.Present? then update else current
  }

  /** The document after `{"$set": s}`. */
  function ApplySet(d: Document, s: SetFields): (r: Document)
    ensures r.id == d.id
    ensures r.telegramId == (if s.telegramId.Present? then s.telegramId else d.telegramId)
    ensures r.username == (if s.username.Present? then s.username else d.username)
    ensures r.firstName == (if s.firstName.Present? then s.firstName else d.firstName)
    ensures r.lastName == (if s.lastName.Present? then s.lastName else d.lastName)
    ensures r.languageCode == (if s.languageCode.Present? then s.languageCode else d.languageCode)
  {
    d.(telegramId := Overwrite(d.telegramId, s.telegramId),
       username := Overwrite(d.username, s.username),
       firstName := Overwrite(d.firstName, s.firstName),
       lastName := Overwrite(d.lastName, s.lastName),
       languageCode := Overwrite(d.languageCode, s.languageCode))
  }

  /** The document an upsert starts from: only the `_id` of the filter. */
  function Blank(id: int): (d: Document)
    ensures d.id == id
    ensures d.telegramId.Absent? && d.username.Absent? && d.firstName.Absent?
    ensures d.lastName.Absent? && d.languageCode.Absent?
  {
    Document(id, Absent, Absent, Absent, Absent, Absent)
  }

  /** The collection after `update_one({"_id": id}, {"$set": s}, upsert=upsert)`. */
  function ApplyUpdate(m: Store, id: int, s: SetFields, upsert: bool): (r: Store)
    ensures r.Keys == if upsert then m.Keys + {id} else m.Keys
    ensures forall k :: k in m && k != id ==> r[k] == m[k]
    ensures id in r ==> r[id] == ApplySet(if id in m then m[id] else Blank(id), s)
  {
    if id in m then m[id := ApplySet(m[id], s)]
    else if upsert then m[id := ApplySet(Blank(id), s)]
    else m
  }

  // ---------------------------------------------------------------------
  // What the endpoints send to the store and read back from it
  // ---------------------------------------------------------------------

  /**
   * `user.model_dump(exclude_unset=True)`: exactly the fields the client
   * sent, nulls included; `telegram_id` is required, so it is always sent.
   */
  function CreateSet(u: UserData): (s: SetFields)
    ensures s.telegramId == Present(u.telegramId)
    ensures s.username.Present? <==> u.username.Present?
    ensures s.firstName.Present? <==> u.firstName.Present?
    ensures s.lastName.Present? <==> u.lastName.Present?
    ensures s.languageCode.Present? <==> u.languageCode.Present?
    ensures s.username.Present? ==> s.username.value == u.username.value
    ensures s.firstName.Present? ==> s.firstName.value == u.firstName.value
    ensures s.lastName.Present? ==> s.lastName.value == u.lastName.value
    ensures s.languageCode.Present? ==> s.languageCode.value == u.languageCode.value
  {
    SetFields(Present(u.telegramId), u.username, u.firstName, u.lastName, u.languageCode)
  }

  /** `{"$set": {"language_code": ...}}`. */
  function LanguageSet(u: UserLanguageUpdate): (s: SetFields)
    ensures s.telegramId.Absent? && s.username.Absent? && s.firstName.Absent? && s.lastName.Absent?
    ensures s.languageCode == Present(Some(u.languageCode))
  {
    SetFields(Absent, Absent, Absent, Absent, Present(Some(u.languageCode)))
  }

  /** The collection after `POST /users`. */
  function Created(m: Store, u: UserData): (r: Store)
    ensures r.Keys == m.Keys + {u.telegramId}
    ensures forall k :: k in m && k != u.telegramId ==> r[k] == m[k]
    ensures r[u.telegramId].telegramId == Present(u.telegramId)
  {
    ApplyUpdate(m, u.telegramId, CreateSet(u), true)
  }

  /** The collection after `PATCH /users/{id}/language` (no upsert). */
  function LanguageUpdated(m: Store, id: int, u: UserLanguageUpdate): (r: Store)
    ensures r.Keys == m.Keys
    ensures forall k :: k in m && k != id ==> r[k] == m[k]
    ensures id !in m ==> r == m
    ensures id in m ==> r[id].languageCode == Present(Some(u.languageCode))
  {
    ApplyUpdate(m, id, LanguageSet(u), false)
  }

  /** A document field as pydantic reads it: a missing key takes the default None. */
  function FieldValue(s: Slot<Text>): Text
  {
    if s.Present? then s.value else None
  }

  /** `user['telegram_id'] = user['_id']; UserData(**user)`. */
  function ToProfile(d: Document): (p: UserProfile)
    ensures p.telegramId == d.id
    ensures p.username == (if d.username.Present? then d.username.value else None)
    ensures p.firstName == (if d.firstName.Present? then d.firstName.value else None)
    ensures p.lastName == (if d.lastName.Present? then d.lastName.value else None)
    ensures p.languageCode == (if d.languageCode.Present? then d.languageCode.value else None)
  {
    UserProfile(d.id, FieldValue(d.username), FieldValue(d.firstName),
                FieldValue(d.lastName), FieldValue(d.languageCode))
  }

  /** What `GET /users/{id}` answers for a collection. */
  function Lookup(m: Store, id: int): (r: Result<UserProfile, Error>)
    ensures r.Err? <==> id !in m
    ensures r.Err? ==> r.error == NotFound(404, NotFoundDetail)
    ensures r.Ok? ==> r.value == ToProfile(m[id])
  {
    if id in m then Ok(ToProfile(m[id])) else Err(NotFound(NotFoundStatus, NotFoundDetail))
  }

  // ---------------------------------------------------------------------
  // The collection object
  // ---------------------------------------------------------------------

  class Collection {
    var docs: Store

    ghost predicate Valid()
      reads this
    {
      Keyed(docs)
    }

    constructor ()
      ensures Valid() && docs == map[]
    {
      docs := map[];
    }

    /** `find_one({"_id": id})`. */
    method FindOne(id: int) returns (doc: Option<Document>)
      requires Valid()
      ensures doc.Some? <==> id in docs
      ensures doc.Some? ==> doc.value == docs[id] && doc.value.id == id
    {
      if id in docs {
        doc := Some(docs[id]);
      } else {
        doc := None;
      }
    }

    /**
     * `update_one({"_id": id}, {"$set": s}, upsert=upsert)`; `matched`
     * is `matched_count == 1`.
     */
    method UpdateOne(id: int, s: SetFields, upsert: bool) returns (matched: bool)
      requires Valid()
      modifies this
      ensures Valid()
      ensures docs == ApplyUpdate(old(docs), id, s, upsert)
      ensures matched == (id in old(docs))
    {
      matched := id in docs;
      if matched {
        docs := docs[id := ApplySet(docs[id], s)];
      } else if upsert {
        docs := docs[id := ApplySet(Blank(id), s)];
      }
    }
  }

  // ---------------------------------------------------------------------
  // The endpoints
  // ---------------------------------------------------------------------

  /** `getUser`: the document stored under `userId`, if any. */
  method GetUser(users: Collection, userId: int) returns (user: Option<Document>)
    requires users.Valid()
    ensures user.Some? <==> userId in users.docs
    ensures user.Some? ==> user.value == users.docs[userId]
  {
    user := users.FindOne(userId);
  }

  /** `updateUser`: an update without upsert whose outcome is discarded. */
  method UpdateUser(users: Collection, telegramId: int, update: SetFields)
    requires users.Valid()
    modifies users
    ensures users.Valid()
    ensures users.docs == ApplyUpdate(old(users.docs), telegramId, update, false)
  {
    var _ := users.UpdateOne(telegramId, update, false);
  }

  /** `POST /users`: insert the record, or `$set` the fields sent on it. */
  method CreateUser(users: Collection, user: UserData) returns (reply: CreateReply)
    requires users.Valid()
    modifies users
    ensures users.Valid()
    ensures users.docs == Created(old(users.docs), user)
    ensures users.docs.Keys == old(users.docs).Keys + {user.telegramId}
    ensures forall k :: k in old(users.docs) && k != user.telegramId ==> users.docs[k] == old(users.docs)[k]
    ensures reply == CreateReply(CreatedMessage, user.telegramId)
  {
    var _ := users.UpdateOne(user.telegramId, CreateSet(user), true);
    reply := CreateReply(CreatedMessage, user.telegramId);
  }

  /** `GET /users/{telegram_id}`: the stored record, or 404. */
  method GetUserData(users: Collection, telegramId: int) returns (r: Result<UserProfile, Error>)
    requires users.Valid()
    ensures r == Lookup(users.docs, telegramId)
    ensures r.Err? <==> telegramId !in users.docs
    ensures r.Ok? ==> r.value.telegramId == telegramId
  {
    var user := GetUser(users, telegramId);
    if user.None? {
      return Err(NotFound(NotFoundStatus, NotFoundDetail));
    }
    r := Ok(ToProfile(user.value));
  }

  /**
   * `PATCH /users/{telegram_id}/language`: sets `language_code` when the
   * record exists and does nothing otherwise; the reply is the same.
   */
  method UpdateUserLanguage(users: Collection, telegramId: int, langUpdate: UserLanguageUpdate)
    returns (reply: LanguageReply)
    requires users.Valid()
    modifies users
    ensures users.Valid()
    ensures users.docs == LanguageUpdated(old(users.docs), telegramId, langUpdate)
    ensures telegramId !in old(users.docs) ==> users.docs == old(users.docs)
    ensures reply == LanguageReply(LanguageUpdatedMessage)
  {
    UpdateUser(users, telegramId, LanguageSet(langUpdate));
    reply := LanguageReply(LanguageUpdatedMessage);
  }

  // ---------------------------------------------------------------------
  // Properties of the record lifecycle
  // ---------------------------------------------------------------------

  /** Every update keeps each document under its own `_id`. */
  lemma UpdateKeepsKeyed(m: Store, id: int, s: SetFields, upsert: bool)
    requires Keyed(m)
    ensures Keyed(ApplyUpdate(m, id, s, upsert))
  {
  }

  /**
   * Create on an unknown id inserts exactly one document, under that id,
   * whose `_id` and `telegram_id` are the id and whose other fields are
   * the ones the client sent; no other document changes.
   */
  lemma CreateInsertsNew(m: Store, u: UserData)
    requires u.telegramId !in m
    ensures Created(m, u).Keys == m.Keys + {u.telegramId}
    ensures Created(m, u)[u.telegramId]
         == Document(u.telegramId, Present(u.telegramId), u.username, u.firstName, u.lastName, u.languageCode)
    ensures forall k :: k in m ==> Created(m, u)[k] == m[k]
  {
  }

  /**
   * Create on a known id overwrites exactly the fields the client sent
   * (an explicit null included) and keeps every other stored field.
   */
  lemma CreateMergesExisting(m: Store, u: UserData)
    requires Keyed(m) && u.telegramId in m
    ensures Created(m, u).Keys == m.Keys
    ensures var d, d' := m[u.telegramId], Created(m, u)[u.telegramId];
      && d'.id == d.id
      && d'.telegramId == Present(u.telegramId)
      && d'.username == (if u.username.Present? then u.username else d.username)
      && d'.firstName == (if u.firstName.Present? then u.firstName else d.firstName)
      && d'.lastName == (if u.lastName.Present? then u.lastName else d.lastName)
      && d'.languageCode == (if u.languageCode.Present? then u.languageCode else d.languageCode)
    ensures forall k :: k in m && k != u.telegramId ==> Created(m, u)[k] == m[k]
  {
  }

  /**
   * What Get answers after Create: each field the client sent (null
   * included), else the value stored before, else null.
   */
  lemma CreateThenLookup(m: Store, u: UserData)
    requires Keyed(m)
    ensures Lookup(Created(m, u), u.telegramId).Ok?
    ensures var p := Lookup(Created(m, u), u.telegramId).value;
      && p.telegramId == u.telegramId
      && p.username == Merged(m, u.telegramId, u.username, (d: Document) => d.username)
      && p.firstName == Merged(m, u.telegramId, u.firstName, (d: Document) => d.firstName)
      && p.lastName == Merged(m, u.telegramId, u.lastName, (d: Document) => d.lastName)
      && p.languageCode == Merged(m, u.telegramId, u.languageCode, (d: Document) => d.languageCode)
  {
  }

  /** A field's value after a merge: the one sent, else the stored one, else null. */
  function Merged(m: Store, id: int, sent: Slot<Text>, field: Document -> Slot<Text>): Text
  {
    if sent.Present? then sent.value
    else if id in m then FieldValue(field(m[id]))
    else None
  }

  /** Every field sent as null is stored as null, not skipped, and read back as null. */
  lemma CreateStoresExplicitNull(m: Store, u: UserData)
    ensures var d, p := Created(m, u)[u.telegramId], Lookup(Created(m, u), u.telegramId);
      && p.Ok?
      && (u.username == Present(None) ==> d.username == Present(None) && p.value.username == None)
      && (u.firstName == Present(None) ==> d.firstName == Present(None) && p.value.firstName == None)
      && (u.lastName == Present(None) ==> d.lastName == Present(None) && p.value.lastName == None)
      && (u.languageCode == Present(None) ==> d.languageCode == Present(None) && p.value.languageCode == None)
  {
  }

  /** `$set` twice with the same fields is `$set` once. */
  lemma ApplySetIdempotent(d: Document, s: SetFields)
    ensures ApplySet(ApplySet(d, s), s) == ApplySet(d, s)
  {
  }

  /** The same update applied twice leaves the collection it left after once. */
  lemma UpdateIdempotent(m: Store, id: int, s: SetFields, upsert: bool)
    ensures ApplyUpdate(ApplyUpdate(m, id, s, upsert), id, s, upsert) == ApplyUpdate(m, id, s, upsert)
  {
    if id in m {
      ApplySetIdempotent(m[id], s);
    } else if upsert {
      ApplySetIdempotent(Blank(id), s);
    }
  }

  /** Create is idempotent. */
  lemma CreateIdempotent(m: Store, u: UserData)
    ensures Created(Created(m, u), u) == Created(m, u)
  {
    UpdateIdempotent(m, u.telegramId, CreateSet(u), true);
  }

  /** Get fails with NotFound exactly on an id that has no document. */
  lemma LookupNotFound(m: Store, id: int)
    ensures Lookup(m, id).Err? <==> id !in m
    ensures Lookup(m, id).Err? ==> Lookup(m, id).error.status == 404
  {
  }

  /** Get returns the stored fields with `telegram_id` copied from `_id`. */
  lemma LookupFound(m: Store, id: int)
    requires Keyed(m) && id in m
    ensures Lookup(m, id).Ok?
    ensures var p, d := Lookup(m, id).value, m[id];
      && p.telegramId == id
      && p.username == FieldValue(d.username)
      && p.firstName == FieldValue(d.firstName)
      && p.lastName == FieldValue(d.lastName)
      && p.languageCode == FieldValue(d.languageCode)
  {
  }

  /** Update-language on a known id changes only `language_code` of that document. */
  lemma LanguageUpdateOnlyLanguage(m: Store, id: int, u: UserLanguageUpdate)
    requires id in m
    ensures LanguageUpdated(m, id, u).Keys == m.Keys
    ensures LanguageUpdated(m, id, u)[id] == m[id].(languageCode := Present(Some(u.languageCode)))
    ensures forall k :: k in m && k != id ==> LanguageUpdated(m, id, u)[k] == m[k]
  {
  }

  /** Update-language on an unknown id changes nothing: no document is created. */
  lemma LanguageUpdateAbsentNoop(m: Store, id: int, u: UserLanguageUpdate)
    requires id !in m
    ensures LanguageUpdated(m, id, u) == m
    ensures Lookup(LanguageUpdated(m, id, u), id).Err?
  {
  }

  /**
   * Create {42, "ann"}, set language "ru", then create {42, first name
   * "Anna"}: each Get sees the fields merged so far.
   */
  lemma CreateLanguageCreateScenario(m: Store)
    requires 42 !in m
    ensures var u1 := UserData(42, Present(Some("ann")), Absent, Absent, Absent);
      var m1 := Created(m, u1);
      var m2 := LanguageUpdated(m1, 42, UserLanguageUpdate("ru"));
      var m3 := Created(m2, UserData(42, Absent, Present(Some("Anna")), Absent, Absent));
      && Lookup(m1, 42) == Ok(UserProfile(42, Some("ann"), None, None, None))
      && Lookup(m2, 42) == Ok(UserProfile(42, Some("ann"), None, None, Some("ru")))
      && Lookup(m3, 42) == Ok(UserProfile(42, Some("ann"), Some("Anna"), None, Some("ru")))
  {
  }
}
