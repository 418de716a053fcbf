/**
 * The settings page's payments-key card: the key status, the save form with its own test-key check,
 * and deletion after confirmation. Requests and the confirmation dialog are parameters.
 */
module SettingsPage {
  import opened Wrappers
  import opened Json
  import Text
  import StripeKeyRoute

  datatype Kind = Success | Error

  /** The banner above the form. */
  datatype Banner = Banner(kind: Kind, text: string)

  /**
   * A request's outcome: a response with its ok flag and the text it carries (`message` when ok, `error`
   * otherwise), or a thrown error (a network failure or a body that is not JSON).
   */
  datatype Reply = Replied(ok: bool, text: string) | Threw

  const TestKeyOnly := "テスト用のキー（sk_test_で始まるもの）のみ使用できます。"
  const SaveFailed := "保存に失敗しました"
  const DeleteFailed := "削除に失敗しました"

  /** `session?.user?.role === 'admin'`. */
  predicate IsAdmin(role: Option<string>) {
    role == Some("admin")
  }

  /** `disabled={saving || !stripeKey}`, negated. */
  predicate SaveEnabled(saving: bool, stripeKey: string) {
    !saving && stripeKey != ""
  }

  /**
   * What the key card renders: a notice for anyone but an administrator, a spinner while the status loads,
   * otherwise the banner, the delete button (only when a key is stored), the key box and the save button.
   */
  datatype Card =
    | AdminOnlyNotice
    | Spinner
    | KeyForm(banner: Option<Banner>, deleteShown: bool, inputsEnabled: bool, saveEnabled: bool, saveLabel: string)

  const SavingLabel := "保存中..."
  const UpdateLabel := "更新する"
  const SaveLabel := "保存する"

  /**
   * The card for a session role and the page state. The form is reachable only for the "admin" role once
   * loading has ended; the save button is enabled only while not saving and with a non-empty key box.
   */
  function CardOf(role: Option<string>, loading: bool, saving: bool, stripeKey: string, hasKey: bool,
                  message: Option<Banner>): (c: Card)
    ensures c.AdminOnlyNotice? <==> role != Some("admin")
    ensures c.KeyForm? <==> role == Some("admin") && !loading
    ensures c.KeyForm? ==>
      && c.banner == message
      && (c.deleteShown <==> hasKey)
      && (c.inputsEnabled <==> !saving)
      && (c.saveEnabled <==> !saving && stripeKey != "")
      && c.saveLabel == (if saving then SavingLabel else if hasKey then UpdateLabel else SaveLabel)
  {
    if !IsAdmin(role) then AdminOnlyNotice
    else if loading then Spinner
    else KeyForm(message, hasKey, !saving, SaveEnabled(saving, stripeKey),
                 if saving then SavingLabel else if hasKey then UpdateLabel else SaveLabel)
  }

  /** Whatever the page state, a session that is not an administrator's can neither save nor delete. */
  lemma OnlyAdminsReachTheForm(role: Option<string>, loading: bool, saving: bool, stripeKey: string, hasKey: bool,
                               message: Option<Banner>)
    requires role != Some("admin")
    ensures !CardOf(role, loading, saving, stripeKey, hasKey, message).KeyForm?
  {
  }

  /** The key the page lets through is exactly the key the endpoint's schema accepts. */
  lemma ClientCheckMatchesServerSchema(key: string)
    ensures Text.StartsWith(key, StripeKeyRoute.TestKeyPrefix) <==>
      StripeKeyRoute.ParseBody(JObj([("stripeSecretKey", JStr(key))])) == Some(key)
  {
  }

  /** The banner a finished request leaves: success with the server's text, or the error it reports. */
  function ReplyBanner(reply: Reply, failed: string): (b: Banner)
    ensures b.kind == Success <==> reply.Replied? && reply.ok
    ensures reply.Replied? ==> b.text == reply.text
    ensures reply.Threw? ==> b == Banner(Error, failed)
  {
    match reply
    case Replied(ok, text) => Banner(if ok then Success else Error, text)
    case Threw => Banner(Error, failed)
  }

  class SettingsPage {
    var stripeKey: string
    var hasKey: bool
    var loading: bool
    var saving: bool
    var message: Option<Banner>

    constructor()
      ensures stripeKey == "" && !hasKey && loading && !saving && message.None?
    {
      stripeKey := "";
      hasKey := false;
      loading := true;
      saving := false;
      message := None;
    }

    /** Loading the status: an ok response (`Some` holding its `hasKey`) sets the flag; loading ends either way. */
    method FetchKeyStatus(status: Option<bool>)
      modifies this
      ensures hasKey == status.GetOr(old(hasKey)) && !loading
      ensures stripeKey == old(stripeKey) && saving == old(saving) && message == old(message)
    {
      if status.Some? {
        hasKey := status.value;
      }
      loading := false;
    }

    method KeyChanged(text: string)
      modifies this
      ensures stripeKey == text
      ensures hasKey == old(hasKey) && loading == old(loading) && saving == old(saving) && message == old(message)
    {
      stripeKey := text;
    }

    /**
     * Submitting the form. A key without the test prefix only shows an error and sends nothing. Otherwise
     * the key is sent (and returned); success records that a key exists and clears the box, a rejection
     * shows the server's error and keeps both. Saving is false again at the end.
     */
    method HandleSave(reply: Reply) returns (sent: Option<string>)
      modifies this
      ensures sent.Some? <==> Text.StartsWith(old(stripeKey), StripeKeyRoute.TestKeyPrefix)
      ensures sent.None? ==>
        && message == Some(Banner(Error, TestKeyOnly))
        && stripeKey == old(stripeKey) && hasKey == old(hasKey) && saving == old(saving)
      ensures sent.Some? ==>
        && sent.value == old(stripeKey)
        && message == Some(ReplyBanner(reply, SaveFailed))
        && !saving
        && (reply.Replied? && reply.ok ==> hasKey && stripeKey == "")
        && (!(reply.Replied? && reply.ok) ==> hasKey == old(hasKey) && stripeKey == old(stripeKey))
      ensures loading == old(loading)
    {
      message := None;
      if !Text.StartsWith(stripeKey, StripeKeyRoute.TestKeyPrefix) {
        message := Some(Banner(Error, TestKeyOnly));
        return None;
      }
      saving := true;
      sent := Some(stripeKey);
      match reply {
        case Replied(ok, text) =>
          if ok {
            message := Some(Banner(Success, text));
            hasKey := true;
            stripeKey := "";
          } else {
            message := Some(Banner(Error, text));
          }
        case Threw =>
          message := Some(Banner(Error, SaveFailed));
      }
      saving := false;
    }

    /**
     * The delete button: nothing at all unless the dialog is confirmed; then the request is sent (`true`),
     * success records that no key exists, and saving is false again at the end.
     */
    method HandleDelete(confirmed: bool, reply: Reply) returns (requested: bool)
      modifies this
      ensures requested == confirmed
      ensures !confirmed ==>
        && message == old(message) && hasKey == old(hasKey) && saving == old(saving)
      ensures confirmed ==>
        && message == Some(ReplyBanner(reply, DeleteFailed))
        && !saving
        && hasKey == (if reply.Replied? && reply.ok then false else old(hasKey))
      ensures stripeKey == old(stripeKey) && loading == old(loading)
    {
      if !confirmed {
        return false;
      }
      requested := true;
      message := None;
      saving := true;
      match reply {
        case Replied(ok, text) =>
          if ok {
            message := Some(Banner(Success, text));
            hasKey := false;
          } else {
            message := Some(Banner(Error, text));
          }
        case Threw =>
          message := Some(Banner(Error, DeleteFailed));
      }
      saving := false;
    }
  }
}
