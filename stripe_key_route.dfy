/**
 * The payments-key settings endpoint: reading whether a key is stored, saving a new test key, and
 * deleting it. Only administrators pass, and a failed guard touches nothing.
 *
 * Authentication, the live check of a key against the payments API and the encryption of a key are
 * parameters.
 */
module StripeKeyRoute {
  import opened Wrappers
  import opened Json
  import Text

  /** The part of an organization record the endpoint manages: the encrypted key and its IV (`None` is null). */
  datatype Organization = Organization(stripeSecretKey: Option<string>, stripeKeyIv: Option<string>)

  /** The signed-in user. */
  datatype User = User(organizationId: string, role: string)

  datatype Response =
    | KeyStatus(hasKey: bool, keyPreview: Option<string>)
    | Done(message: string)
    | Rejected(status: nat, error: string)

  const AuthRequired := "認証が必要です"
  const AdminRequired := "管理者権限が必要です"
  const InvalidInput := "入力が不正です"
  const LiveKeyRejected := "本番用のキー（sk_live_）は使用できません。テスト用のキー（sk_test_）を使用してください。"
  const BadKeyFormat := "無効なキー形式です。Stripeのテスト用シークレットキー（sk_test_で始まるもの）を入力してください。"
  const KeyRejectedByStripe := "Stripeキーが無効です。正しいシークレットキーを入力してください。"
  const InternalError := "エラーが発生しました"
  const Saved := "Stripeキーを保存しました"
  const Deleted := "Stripeキーを削除しました"
  const KeyMask := "sk_****...****"

  const TestKeyPrefix := "sk_test_"
  const LiveKeyPrefix := "sk_live_"

  /** The body schema: an object whose `stripeSecretKey` is a non-empty string starting with "sk_test_". */
  function ParseBody(body: Json): (key: Option<string>)
    ensures key.Some? <==>
      && Prop(body, "stripeSecretKey").Some? && Prop(body, "stripeSecretKey").value.JStr?
      && |Prop(body, "stripeSecretKey").value.s| >= 1 && Text.StartsWith(Prop(body, "stripeSecretKey").value.s, TestKeyPrefix)
    ensures key.Some? ==> Prop(body, "stripeSecretKey") == Some(JStr(key.value)) && Text.StartsWith(key.value, TestKeyPrefix)
  {
    var v := Prop(body, "stripeSecretKey");
    if v.Some? && v.value.JStr? && |v.value.s| >= 1 && Text.StartsWith(v.value.s, TestKeyPrefix) then Some(v.value.s) else None
  }

  /** Once the schema has accepted a key, the later prefix checks cannot fail: they are a second line of defence only. */
  lemma PrefixChecksAfterSchemaNeverFail(body: Json)
    requires ParseBody(body).Some?
    ensures !Text.StartsWith(ParseBody(body).value, LiveKeyPrefix)
    ensures Text.StartsWith(ParseBody(body).value, TestKeyPrefix)
  {
    var key := ParseBody(body).value;
    assert key[3] == TestKeyPrefix[3];
  }

  /** The first two guards every verb shares: a session (401), then the administrator role (403). */
  function Guard(user: Option<User>): (r: Option<Response>)
    ensures user.None? ==> r == Some(Rejected(401, AuthRequired))
    ensures user.Some? && user.value.role != "admin" ==> r == Some(Rejected(403, AdminRequired))
    ensures r.None? <==> user.Some? && user.value.role == "admin"
  {
    if user.None? then Some(Rejected(401, AuthRequired))
    else if user.value.role != "admin" then Some(Rejected(403, AdminRequired))
    else None
  }

  /** What GET reports for a record: whether a key is stored, and the fixed mask exactly then. */
  function Status(org: Option<Organization>): (r: Response)
    ensures r.KeyStatus?
    ensures r.hasKey <==> org.Some? && org.value.stripeSecretKey.Some? && org.value.stripeSecretKey.value != ""
    ensures r.keyPreview == if r.hasKey then Some(KeyMask) else None
  {
    var stored := if org.Some? then org.value.stripeSecretKey else None;
    var hasKey := stored.Some? && stored.value != "";
    KeyStatus(hasKey, if hasKey then Some(KeyMask) else None)
  }

  /** The preview never reveals the stored key: it is the same mask for every key. */
  lemma PreviewHidesKey(key1: string, key2: string, iv1: Option<string>, iv2: Option<string>)
    requires key1 != "" && key2 != ""
    ensures Status(Some(Organization(Some(key1), iv1))) == Status(Some(Organization(Some(key2), iv2)))
  {
  }

  /** The organization table. */
  class Organizations {
    var records: map<string, Organization>

    constructor(records: map<string, Organization>)
      ensures this.records == records
    {
      this.records := records;
    }

    function Find(id: string): Option<Organization>
      reads this
    {
      if id in records then Some(records[id]) else None
    }

    /** `GET`: the guards, then the status of the user's organization; nothing is written. */
    method Get(user: Option<User>) returns (response: Response)
      ensures Guard(user).Some? ==> response == Guard(user).value
      ensures Guard(user).None? ==> response == Status(Find(user.value.organizationId))
    {
      var rejected := Guard(user);
      if rejected.Some? {
        return rejected.value;
      }
      response := Status(Find(user.value.organizationId));
    }

    /**
     * `POST`: the guards, the body parse (`None` is a body that is not JSON, whose `SyntaxError` the handler
     * answers with 500), the schema, the live check of the key, then one update writing the encrypted key
     * together with its IV. Every rejection leaves the table unchanged.
     */
    method Post(user: Option<User>, body: Option<Json>, keyWorks: string -> bool, encrypt: string -> (string, string))
      returns (response: Response)
      modifies this
      ensures Guard(user).Some? ==> response == Guard(user).value && records == old(records)
      ensures Guard(user).None? && body.None? ==> response == Rejected(500, InternalError) && records == old(records)
      ensures Guard(user).None? && body.Some? && ParseBody(body.value).None? ==>
        response == Rejected(400, InvalidInput) && records == old(records)
      ensures Guard(user).None? && body.Some? && ParseBody(body.value).Some? && !keyWorks(ParseBody(body.value).value) ==>
        response == Rejected(400, KeyRejectedByStripe) && records == old(records)
      ensures response.Done? <==>
        && Guard(user).None? && body.Some? && ParseBody(body.value).Some? && keyWorks(ParseBody(body.value).value)
        && user.value.organizationId in old(records)
      ensures response.Done? ==>
        var (encrypted, iv) := encrypt(ParseBody(body.value).value);
        && response == Done(Saved)
        && records == old(records)[user.value.organizationId := Organization(Some(encrypted), Some(iv))]
      ensures !response.Done? ==> records == old(records)
    {
      var rejected := Guard(user);
      if rejected.Some? {
        return rejected.value;
      }
      if body.None? {
        return Rejected(500, InternalError);
      }
      var validated := ParseBody(body.value);
      if validated.None? {
        return Rejected(400, InvalidInput);
      }
      var key := validated.value;
      // The explicit rejections of a live key (LiveKeyRejected) and of a key without the test prefix
      // (BadKeyFormat) that follow the schema in the source can never fire.
      PrefixChecksAfterSchemaNeverFail(body.value);
      if !keyWorks(key) {
        return Rejected(400, KeyRejectedByStripe);
      }
      var (encrypted, iv) := encrypt(key);
      var id := user.value.organizationId;
      if id !in records {
        // the update of a missing record throws, and the handler answers 500
        return Rejected(500, InternalError);
      }
      records := records[id := Organization(Some(encrypted), Some(iv))];
      response := Done(Saved);
    }

    /** `DELETE`: the guards, then one update setting both the key and its IV to null. */
    method Delete(user: Option<User>) returns (response: Response)
      modifies this
      ensures Guard(user).Some? ==> response == Guard(user).value && records == old(records)
      ensures response.Done? <==> Guard(user).None? && user.value.organizationId in old(records)
      ensures response.Done? ==>
        response == Done(Deleted) && records == old(records)[user.value.organizationId := Organization(None, None)]
      ensures !response.Done? ==> records == old(records)
    {
      var rejected := Guard(user);
      if rejected.Some? {
        return rejected.value;
      }
      var id := user.value.organizationId;
      if id !in records {
        return Rejected(500, InternalError);
      }
      records := records[id := Organization(None, None)];
      response := Done(Deleted);
    }
  }

  /** After a delete, the status reports no key. */
  lemma DeletedKeyIsReportedMissing()
    ensures Status(Some(Organization(None, None))) == KeyStatus(false, None)
  {
  }

  /** After a save, the status reports a key, given that encryption yields a non-empty text. */
  lemma SavedKeyIsReported(encrypted: string, iv: string)
    requires encrypted != ""
    ensures Status(Some(Organization(Some(encrypted), Some(iv)))) == KeyStatus(true, Some(KeyMask))
  {
  }
}
