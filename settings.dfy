/**
 * The settings tables: system settings keyed by their `setting_key`, with an
 * upsert whose per-field rules differ between insert and update, a delete
 * that reports a missing key, and the projection of the public ones; and the
 * per-user settings records, created with defaults on first read and updated
 * attribute by attribute.
 */
module Settings {
  import opened Wrappers
  import opened Http

  // ----------------------------------------------------------- system settings

  /** A `system_settings` row without its key. */
  datatype SystemSetting = SystemSetting(value: Option<string>, settingType: string, description: Option<string>, isPublic: bool)

  /** The `setting_type` the update endpoint uses when none is given. */
  const DefaultSettingType: string := "string"

  /**
   * The row `update_system_setting` leaves behind: a new row holding exactly
   * the arguments, or the existing one with the value and visibility
   * replaced, the type replaced only by a non-empty one and the description
   * only by a given one.
   */
  function Upserted(existing: Option<SystemSetting>, value: string, settingType: string, description: Option<string>,
                    isPublic: bool): (s: SystemSetting)
    ensures s.value == Some(value) && s.isPublic == isPublic
    ensures existing.None? || settingType != "" ==> s.settingType == settingType
    ensures existing.None? || description.Some? ==> s.description == description
  {
    match existing
    case None => SystemSetting(Some(value), settingType, description, isPublic)
    case Some(s) =>
      SystemSetting(Some(value),
                    if settingType != "" then settingType else s.settingType,
                    if description.Some? then description else s.description,
                    isPublic)
  }

  /** The row of `key` in `rows`, if any. */
  function Lookup(rows: map<string, SystemSetting>, key: string): Option<SystemSetting> {
    if key in rows then Some(rows[key]) else None
  }

  /** The per-field rules of the upsert, for an absent and for a present key. */
  lemma UpsertFieldRules(existing: Option<SystemSetting>, value: string, settingType: string, description: Option<string>,
                         isPublic: bool)
    ensures var s := Upserted(existing, value, settingType, description, isPublic);
            s.value == Some(value) && s.isPublic == isPublic &&
            (existing.None? ==> s == SystemSetting(Some(value), settingType, description, isPublic)) &&
            (existing.Some? ==>
               (s.settingType == if settingType == "" then existing.value.settingType else settingType) &&
               (s.description == if description.None? then existing.value.description else description))
  {
  }

  /** Repeating an upsert with the same arguments changes nothing more. */
  lemma UpsertIdempotent(existing: Option<SystemSetting>, value: string, settingType: string, description: Option<string>,
                         isPublic: bool)
    ensures var once := Upserted(existing, value, settingType, description, isPublic);
            Upserted(Some(once), value, settingType, description, isPublic) == once
  {
  }

  /** What the public endpoint reports for a setting. */
  datatype PublicView = PublicView(value: Option<string>, settingType: string, description: Option<string>)

  function ViewOf(s: SystemSetting): PublicView {
    PublicView(s.value, s.settingType, s.description)
  }

  /** The public settings of `rows`, keyed as the table is. */
  function PublicSettings(rows: map<string, SystemSetting>): (m: map<string, PublicView>)
    ensures forall k :: k in m <==> k in rows && rows[k].isPublic
    ensures forall k :: k in m ==> m[k] == ViewOf(rows[k])
  {
    map k | k in rows && rows[k].isPublic :: ViewOf(rows[k])
  }

  /** Writing one row changes the public settings at that key only. */
  lemma PublicAfterWrite(rows: map<string, SystemSetting>, key: string, s: SystemSetting)
    ensures PublicSettings(rows[key := s]) ==
            if s.isPublic then PublicSettings(rows)[key := ViewOf(s)] else PublicSettings(rows) - {key}
  {
    var after := PublicSettings(rows[key := s]);
    var expected := if s.isPublic then PublicSettings(rows)[key := ViewOf(s)] else PublicSettings(rows) - {key};
    assert forall k :: k in after <==> k in expected;
  }

  /** Deleting a row takes its key out of the public settings and nothing else. */
  lemma PublicAfterDelete(rows: map<string, SystemSetting>, key: string)
    ensures PublicSettings(rows - {key}) == PublicSettings(rows) - {key}
  {
    assert forall k :: k in PublicSettings(rows - {key}) <==> k in PublicSettings(rows) - {key};
  }

  /** Inserting a new key and deleting it again gives back the table. */
  lemma DeleteUndoesInsert(rows: map<string, SystemSetting>, key: string, s: SystemSetting)
    requires key !in rows
    ensures rows[key := s] - {key} == rows
  {
    assert forall k :: k in rows[key := s] - {key} <==> k in rows;
  }

  /** The `system_settings` table. */
  class SystemSettingsTable {
    var rows: map<string, SystemSetting>

    constructor()
      ensures rows == map[]
    {
      rows := map[];
    }

    /** `update_system_setting`: inserts or updates the row of `key`; no other row changes. */
    method UpdateSystemSetting(key: string, value: string, settingType: string := DefaultSettingType,
                               description: Option<string> := None, isPublic: bool := false)
      returns (saved: SystemSetting)
      modifies this
      ensures rows == old(rows)[key := Upserted(Lookup(old(rows), key), value, settingType, description, isPublic)]
      ensures saved == rows[key]
      ensures forall k :: k != key ==> (k in rows <==> k in old(rows)) && (k in rows ==> rows[k] == old(rows)[k])
    {
      if key !in rows {
        saved := SystemSetting(Some(value), settingType, description, isPublic);
      } else {
        saved := rows[key];
        saved := saved.(value := Some(value));
        if settingType != "" {
          saved := saved.(settingType := settingType);
        }
        if description.Some? {
          saved := saved.(description := description);
        }
        saved := saved.(isPublic := isPublic);
      }
      rows := rows[key := saved];
    }

    /** `delete_system_setting`: 404 and no change for a missing key; otherwise the row goes. */
    method DeleteSystemSetting(key: string) returns (r: Result<(), HttpError>)
      modifies this
      ensures key !in old(rows) ==> r.Err? && r.error.status == NotFound && rows == old(rows)
      ensures key in old(rows) ==> r.Ok? && rows == old(rows) - {key}
    {
      if key !in rows {
        return Err(HttpError(NotFound, "设置不存在"));
      }
      rows := rows - {key};
      r := Ok(());
    }

    /** `get_public_system_settings`: fills the dict from the public rows, one row at a time. */
    method GetPublicSystemSettings() returns (settingsDict: map<string, PublicView>)
      ensures settingsDict == PublicSettings(rows)
    {
      var pending := set k | k in rows && rows[k].isPublic;
      settingsDict := map[];
      while pending != {}
        invariant forall k :: k in pending ==> k in rows && rows[k].isPublic
        invariant forall k :: k in settingsDict <==> k in rows && rows[k].isPublic && k !in pending
        invariant forall k :: k in settingsDict ==> settingsDict[k] == ViewOf(rows[k])
        decreases pending
      {
        var k :| k in pending;
        settingsDict := settingsDict[k := ViewOf(rows[k])];
        pending := pending - {k};
      }
      assert forall k :: k in settingsDict <==> k in PublicSettings(rows);
    }
  }

  // ------------------------------------------------------------- user settings

  /** The JSON-ish values a user-settings attribute holds. */
  datatype Json = JNull | JBool(b: bool) | JInt(i: int) | JReal(r: real) | JStr(s: string) | JObj(fields: map<string, Json>)

  /** A freshly created `user_settings` record for `userId`, its columns at their declared defaults. */
  function DefaultUserSettings(userId: int): (attrs: map<string, Json>)
    ensures attrs.Keys == {"user_id", "theme", "language", "notifications", "privacy", "ai_preferences"}
  {
    map["user_id" := JInt(userId),
        "theme" := JStr("light"),
        "language" := JStr("zh-CN"),
        "notifications" := JObj(map["email" := JBool(true), "push" := JBool(false), "sms" := JBool(false)]),
        "privacy" := JObj(map["profile_visible" := JBool(true), "activity_visible" := JBool(false)]),
        "ai_preferences" := JObj(map["default_model" := JStr("gpt-3.5-turbo"), "temperature" := JReal(0.7),
                                     "max_tokens" := JInt(1000)])]
  }

  /** The record after the `setattr` loop: each attribute it has takes the given value, other keys are ignored. */
  function Applied(attrs: map<string, Json>, data: map<string, Json>): (r: map<string, Json>)
    ensures r.Keys == attrs.Keys
  {
    map k | k in attrs :: if k in data then data[k] else attrs[k]
  }

  /**
   * An update keeps the record's attributes, sets exactly those that are
   * named in the data, leaves the rest alone, and applying it twice is
   * applying it once.
   */
  lemma AppliedSetsOnlyKnownAttributes(attrs: map<string, Json>, data: map<string, Json>)
    ensures var r := Applied(attrs, data);
            (forall k :: k in attrs && k in data ==> r[k] == data[k]) &&
            (forall k :: k in attrs && k !in data ==> r[k] == attrs[k]) &&
            (forall k :: k in data && k !in attrs ==> k !in r) &&
            Applied(r, data) == r
  {
  }

  /** Every record sits under the id its own `user_id` column holds. */
  predicate KeyedByUserId(records: map<int, map<string, Json>>) {
    forall u :: u in records ==> "user_id" in records[u] && records[u]["user_id"] == JInt(u)
  }

  /**
   * The table once the updated record of `userId` is committed. `user_id`
   * is a column like any other, so the update may have rewritten it: the
   * record stays put while it names `userId`, moves to the new id when that
   * id has no record, and the commit fails (`None`, nothing stored) when the
   * new id already has one, `user_id` being unique, or is not an integer.
   */
  function Committed(records: map<int, map<string, Json>>, userId: int, updated: map<string, Json>)
    : (r: Option<map<int, map<string, Json>>>)
    requires "user_id" in updated
  {
    match updated["user_id"]
    case JInt(v) =>
      if v == userId then Some(records[userId := updated])
      else if v !in records then Some((records - {userId})[v := updated])
      else None
    case _ => None
  }

  /**
   * A committed update keeps every record under its own `user_id` and leaves
   * the records of all other users alone; when it moves the record, the
   * user it came from has none left.
   */
  lemma CommittedKeepsOwnership(records: map<int, map<string, Json>>, userId: int, data: map<string, Json>)
    requires KeyedByUserId(records) && userId in records
    ensures "user_id" in Applied(records[userId], data)
    ensures var updated := Applied(records[userId], data);
            var r := Committed(records, userId, updated);
            r.Some? ==>
              && KeyedByUserId(r.value)
              && updated["user_id"].JInt? && updated["user_id"].i in r.value
              && r.value[updated["user_id"].i] == updated
              && (updated["user_id"] != JInt(userId) ==> userId !in r.value)
              && (forall u :: u != userId && u != updated["user_id"].i ==>
                    (u in r.value <==> u in records) && (u in r.value ==> r.value[u] == records[u]))
  {
  }

  /** An update that leaves `user_id` alone always commits, in place. */
  lemma CommittedInPlace(records: map<int, map<string, Json>>, userId: int, data: map<string, Json>)
    requires KeyedByUserId(records) && userId in records
    requires "user_id" !in data || data["user_id"] == JInt(userId)
    ensures "user_id" in Applied(records[userId], data)
    ensures var updated := Applied(records[userId], data);
            Committed(records, userId, updated) == Some(records[userId := updated])
  {
  }

  /** The `user_settings` table, keyed by user id, each record a map from attribute to value. */
  class UserSettingsTable {
    var records: map<int, map<string, Json>>

    predicate Valid()
      reads this
    {
      KeyedByUserId(records)
    }

    constructor()
      ensures Valid() && records == map[]
    {
      records := map[];
    }

    /** `get_user_settings`: the user's record, created with the defaults when there is none. */
    method GetUserSettings(userId: int) returns (attrs: map<string, Json>)
      requires Valid()
      modifies this
      ensures Valid()
      ensures userId in old(records) ==> records == old(records) && attrs == records[userId]
      ensures userId !in old(records) ==> records == old(records)[userId := DefaultUserSettings(userId)]
      ensures attrs == records[userId]
    {
      if userId !in records {
        records := records[userId := DefaultUserSettings(userId)];
      }
      attrs := records[userId];
    }

    /**
     * `update_user_settings` for an existing record: `setattr` for each key
     * the record has, then the commit, which re-keys the record when its
     * `user_id` was rewritten and fails with a server error when the new id
     * is taken.
     */
    method UpdateUserSettings(userId: int, data: map<string, Json>) returns (r: Result<map<string, Json>, HttpError>)
      requires Valid() && userId in records
      modifies this
      ensures Valid()
      ensures var updated := Applied(old(records)[userId], data);
              "user_id" in updated &&
              match Committed(old(records), userId, updated)
              case Some(t) => records == t && r == Ok(updated)
              case None => records == old(records) && r.Err? && r.error.status == InternalServerError
    {
      var attrs := records[userId];
      var pending := data.Keys;
      ghost var original := attrs;
      while pending != {}
        invariant pending <= data.Keys
        invariant attrs.Keys == original.Keys
        invariant forall k :: k in attrs ==> attrs[k] == if k in data && k !in pending then data[k] else original[k]
        decreases pending
      {
        var key :| key in pending;
        if key in attrs {
          attrs := attrs[key := data[key]];
        }
        pending := pending - {key};
      }
      assert attrs == Applied(original, data);
      CommittedKeepsOwnership(records, userId, data);
      match attrs["user_id"] {
        case JInt(v) =>
          if v == userId {
            records := records[userId := attrs];
          } else if v !in records {
            records := (records - {userId})[v := attrs];
          } else {
            return Err(HttpError(InternalServerError, "Internal Server Error"));
          }
        case _ =>
          return Err(HttpError(InternalServerError, "Internal Server Error"));
      }
      r := Ok(attrs);
    }
  }
}
