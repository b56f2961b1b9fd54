/**
 * The API error type, its fixed catalog of eighteen predefined errors, the
 * lookup table keyed by error token, and the mapper that turns the
 * `(status, message)` of an error envelope into an error value.
 */
module Errors {
  import opened Wrappers
  import Decimal

  /** An error reported by the remote API: an HTTP-like status and a canonical token. */
  datatype Error = Error(status: int, message: string) {

    /** What the error's `Error()` method prints: the message and the status, framed. */
    function Text(): (s: string)
      ensures |s| > |RenderPrefix| + |message| && s[..|RenderPrefix|] == RenderPrefix && s[|s| - 1] == ')'
      ensures s[|RenderPrefix|..|RenderPrefix| + |message|] == message
    {
      RenderPrefix + message + StatusInfix + Decimal.FormatInt(status) + ")"
    }
  }

  const RenderPrefix := "easyslip: "
  const StatusInfix := " (status: "

  /**
   * Recovers an error from its rendering: the status is the numeric run just
   * before the closing parenthesis, the message everything between the prefix
   * and the status infix that precedes that run.
   */
  function Parse(s: string): Option<Error> {
    if |s| <= |RenderPrefix| || s[..|RenderPrefix|] != RenderPrefix || s[|s| - 1] != ')' then None
    else ParseInner(s[|RenderPrefix|..|s| - 1])
  }

  /** Parses what lies between the prefix and the closing parenthesis. */
  function ParseInner(inner: string): Option<Error> {
    var k := Decimal.NumericSuffixLength(inner);
    var head := inner[..|inner| - k];
    if |head| < |StatusInfix| || head[|head| - |StatusInfix|..] != StatusInfix then None
    else match Decimal.ParseInt(inner[|inner| - k..])
      case None => None
      case Some(n) => Some(Error(n, head[..|head| - |StatusInfix|]))
  }

  /** The text of an error determines it: both its status and its message can be read back. */
  lemma TextParsesBack(e: Error)
    ensures Parse(e.Text()) == Some(e)
  {
    var digits := Decimal.FormatInt(e.status);
    var head := e.message + StatusInfix;
    var s := e.Text();
    assert s == RenderPrefix + (head + digits) + ")";
    var inner := head + digits;
    assert s[..|RenderPrefix|] == RenderPrefix;
    assert s[|RenderPrefix|..|s| - 1] == inner;
    Decimal.NumericSuffixOfFormat(head, e.status);
    assert inner[..|inner| - |digits|] == head;
    assert inner[|inner| - |digits|..] == digits;
    assert head[|head| - |StatusInfix|..] == StatusInfix;
    assert head[..|head| - |StatusInfix|] == e.message;
    Decimal.ParseFormat(e.status);
  }

  // The predefined errors, in declaration order.
  const ErrInvalidImage := Error(400, "invalid_image")
  const ErrImageSizeTooLarge := Error(400, "image_size_too_large")
  const ErrInvalidTransactionID := Error(400, "invalid_transaction_id")
  const ErrInvalidAmount := Error(400, "invalid_amount")
  const ErrInvalidSenderName := Error(400, "invalid_sender_name")
  const ErrInvalidReceiverName := Error(400, "invalid_receiver_name")
  const ErrInvalidReceiverPhone := Error(400, "invalid_receiver_phone")
  const ErrUnauthorized := Error(401, "unauthorized")
  const ErrAccessDenied := Error(403, "access_denied")
  const ErrAccountNotVerified := Error(403, "account_not_verified")
  const ErrApplicationExpired := Error(403, "application_expired")
  const ErrApplicationDeactivated := Error(403, "application_deactivated")
  const ErrQuotaExceeded := Error(403, "quota_exceeded")
  const ErrSlipNotFound := Error(404, "slip_not_found")
  const ErrQRCodeNotFound := Error(404, "qrcode_not_found")
  const ErrServerError := Error(500, "server_error")
  const ErrAPIServerError := Error(500, "api_server_error")
  const ErrInvalidPayload := Error(400, "invalid_payload")

  const Catalog: seq<Error> := [
    ErrInvalidImage, ErrImageSizeTooLarge, ErrInvalidTransactionID, ErrInvalidAmount,
    ErrInvalidSenderName, ErrInvalidReceiverName, ErrInvalidReceiverPhone, ErrUnauthorized,
    ErrAccessDenied, ErrAccountNotVerified, ErrApplicationExpired, ErrApplicationDeactivated,
    ErrQuotaExceeded, ErrSlipNotFound, ErrQRCodeNotFound, ErrServerError,
    ErrAPIServerError, ErrInvalidPayload
  ]

  /** The lookup table from error token to predefined error. */
  const ErrorMap: map<string, Error> := map[
    "invalid_image" := ErrInvalidImage,
    "image_size_too_large" := ErrImageSizeTooLarge,
    "invalid_transaction_id" := ErrInvalidTransactionID,
    "invalid_amount" := ErrInvalidAmount,
    "invalid_sender_name" := ErrInvalidSenderName,
    "invalid_receiver_name" := ErrInvalidReceiverName,
    "invalid_receiver_phone" := ErrInvalidReceiverPhone,
    "unauthorized" := ErrUnauthorized,
    "access_denied" := ErrAccessDenied,
    "account_not_verified" := ErrAccountNotVerified,
    "application_expired" := ErrApplicationExpired,
    "application_deactivated" := ErrApplicationDeactivated,
    "quota_exceeded" := ErrQuotaExceeded,
    "slip_not_found" := ErrSlipNotFound,
    "qrcode_not_found" := ErrQRCodeNotFound,
    "server_error" := ErrServerError,
    "api_server_error" := ErrAPIServerError,
    "invalid_payload" := ErrInvalidPayload
  ]

  /** Every table entry is keyed by its own token and is one of the predefined errors. */
  lemma ErrorMapConsistent()
    ensures forall k | k in ErrorMap :: ErrorMap[k].message == k && ErrorMap[k] in Catalog
  {
  }

  /** The table indexes exactly the catalog: one entry per predefined error. */
  lemma ErrorMapIndexesCatalog()
    ensures forall i | 0 <= i < |Catalog| :: Catalog[i].message in ErrorMap && ErrorMap[Catalog[i].message] == Catalog[i]
  {
  }

  /** Eighteen predefined errors with pairwise distinct tokens. */
  lemma CatalogDistinct()
    ensures |Catalog| == 18
    ensures forall i, j | 0 <= i < j < |Catalog| :: Catalog[i].message != Catalog[j].message
  {
  }

  /** The table's keys are exactly the catalog's tokens. */
  lemma ErrorMapKeys()
    ensures ErrorMap.Keys == set i | 0 <= i < |Catalog| :: Catalog[i].message
  {
    ErrorMapConsistent();
    ErrorMapIndexesCatalog();
    forall k | k in ErrorMap
      ensures exists i | 0 <= i < |Catalog| :: Catalog[i].message == k
    {
      var i :| 0 <= i < |Catalog| && Catalog[i] == ErrorMap[k];
    }
  }

  lemma CatalogSize()
    ensures |ErrorMap| == 18
  {
    CatalogDistinct();
    var keys: set<string> := {};
    var i := 0;
    while i < |Catalog|
      invariant i <= |Catalog|
      invariant |keys| == i
      invariant keys == set j | 0 <= j < i :: Catalog[j].message
    {
      assert Catalog[i].message !in keys;
      keys := keys + {Catalog[i].message};
      i := i + 1;
    }
    ErrorMapKeys();
  }

  /** Every predefined error carries one of the statuses 400, 401, 403, 404 and 500. */
  lemma CatalogStatuses()
    ensures forall k | k in ErrorMap :: ErrorMap[k].status in {400, 401, 403, 404, 500}
  {
  }

  /**
   * The error for an envelope's `(status, message)`: the predefined error when
   * the message is a known token, otherwise a new error with the given status
   * and message.
   */
  function NewErrorFromMessage(status: int, message: string): (e: Error)
    ensures e.message == message
    ensures message in ErrorMap ==> e in Catalog
    ensures message !in ErrorMap ==> e.status == status
  {
    ErrorMapConsistent();
    if message in ErrorMap then ErrorMap[message] else Error(status, message)
  }

  /** A known token yields its predefined error whatever status the caller passes: the catalog's status wins. */
  lemma CatalogStatusWins(status: int, token: string)
    requires token in ErrorMap
    ensures NewErrorFromMessage(status, token) == ErrorMap[token]
  {
  }

  /** Each of the eighteen catalog pairs maps to itself, under any caller status. */
  lemma CatalogEntriesMapToThemselves(status: int)
    ensures forall i | 0 <= i < |Catalog| :: NewErrorFromMessage(status, Catalog[i].message) == Catalog[i]
  {
    ErrorMapIndexesCatalog();
  }

  /** An unknown token yields an error carrying exactly the caller's status and message. */
  lemma UnknownTokenPreserved(status: int, message: string)
    requires message !in ErrorMap
    ensures NewErrorFromMessage(status, message) == Error(status, message)
  {
  }

  /** The resulting status is the catalog's for a known token and the caller's otherwise. */
  lemma StatusSource(status: int, message: string)
    ensures NewErrorFromMessage(status, message).status == if message in ErrorMap then ErrorMap[message].status else status
    ensures message in ErrorMap ==> NewErrorFromMessage(status, message).status in {400, 401, 403, 404, 500}
  {
    CatalogStatuses();
  }

  /** Mapping a result again with its own status and message gives the same error. */
  lemma MapperIdempotent(status: int, message: string)
    ensures var e := NewErrorFromMessage(status, message);
      NewErrorFromMessage(e.status, e.message) == e
  {
  }

  /** An API reply carrying a catalog token under a wrong status still yields the catalog's error. */
  lemma QuotaExceededExample()
    ensures NewErrorFromMessage(429, "quota_exceeded") == ErrQuotaExceeded
    ensures NewErrorFromMessage(403, "quota_exceeded").status == 403
    ensures NewErrorFromMessage(418, "teapot") == Error(418, "teapot")
  {
  }

  lemma QuotaExceededText()
    ensures ErrQuotaExceeded.Text() == "easyslip: quota_exceeded (status: 403)"
  {
    assert Decimal.Digits(4) == "4";
    assert Decimal.Digits(40) == "40";
    assert Decimal.FormatInt(403) == "403";
  }
}
