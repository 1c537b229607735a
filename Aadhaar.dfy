/**
 * The Aadhaar verification service (server/services/aadhaar.ts): an adapter
 * between the portal and the identity provider's generate-otp, verify-otp and
 * verify-biometric endpoints.
 *
 * The provider's reply, the clock, the random suffix of the transaction id and
 * the SHA-256 digest are inputs. Each call past its argument check writes one
 * entry to the verification log; whether the store accepts the write is an
 * input too, and a failed write never reaches the caller.
 */
module Aadhaar {
  import opened Wrappers
  import opened Text
  import opened Schema

  const TYPE_OTP := "OTP"
  const TYPE_BIOMETRIC := "BIOMETRIC"

  const STATUS_OTP_SENT := "OTP_SENT"
  const STATUS_VERIFIED := "VERIFIED"
  const STATUS_FAILED := "FAILED"

  const TXN_PREFIX := "SAINIK"

  datatype VerificationRequest = VerificationRequest(aadhaarNumber: string, biometricData: Option<string>,
                                                     otp: Option<string>, verificationType: string,
                                                     txnId: Option<string>)

  datatype Holder = Holder(name: string, dateOfBirth: string, gender: string, address: string, photo: string)

  /**
   * What the provider call produced: a reply body (`response.data`), or an
   * error thrown by the HTTP client (network failure, error status) with its message.
   */
  datatype ProviderReply =
    | Replied(status: string, message: Option<string>, holder: Holder)
    | TransportError(errorMessage: string)

  /** The body posted to the provider. */
  datatype ProviderCall =
    | PostGenerateOtp(uid: string, newTxnId: string, consent: string, certificateType: string)
    | PostVerifyOtp(txnId: Option<string>, otp: string, uid: string)
    | PostVerifyBiometric(txnId: Option<string>, uid: string, biometricData: string, certificateType: string)

  datatype VerificationResponse = VerificationResponse(success: bool, verified: bool, holder: Option<Holder>,
                                                       error: Option<string>, txnId: string)

  /** A service call either resolves with a response or rejects before reaching the provider. */
  datatype Outcome = Returned(response: VerificationResponse) | Thrown(message: string)

  /** A row of the verification log; the address and user agent are always left empty. */
  datatype LogEntry = LogEntry(aadhaarNumber: string, verificationType: string, verificationStatus: string,
                               errorMessage: Option<string>, txnId: string, ipAddress: string, userAgent: string)

  /** `s.substring(7)`: everything from offset 7, or "" for a shorter string. */
  function Substring7(s: string): (r: string)
    ensures |s| >= 7 ==> s == s[..7] + r
    ensures |s| < 7 ==> r == ""
  {
    if |s| >= 7 then s[7..] else ""
  }

  /**
   * `SAINIK-<Date.now()>-<Math.random().toString(36).substring(7)>`, with the
   * clock reading `now` and the base-36 rendering `random36` as inputs.
   */
  function GenerateTxnId(now: nat, random36: string): (r: string)
    ensures TXN_PREFIX + "-" <= r
  {
    TXN_PREFIX + "-" + NatToString(now) + "-" + Substring7(random36)
  }

  /** The second dash-separated field of a transaction id is the clock reading it was made from. */
  lemma TxnIdFields(now: nat, random36: string)
    ensures var fields := Split(GenerateTxnId(now, random36), '-');
            |fields| >= 3 && fields[0] == TXN_PREFIX && fields[1] == NatToString(now)
  {
    var n := NatToString(now);
    var tail := Substring7(random36);
    assert '-' !in n by {
      forall i | 0 <= i < |n| ensures n[i] != '-' { assert IsDigit(n[i]); }
    }
    assert GenerateTxnId(now, random36) == TXN_PREFIX + ("-" + (n + ("-" + tail)));
    var s2 := Split("-" + tail, '-');
    assert ("-" + tail)[1..] == tail;
    assert s2 == [""] + Split(tail, '-');
    SplitPrefix(n, "-" + tail, '-');
    var s1 := Split(n + ("-" + tail), '-');
    assert s1 == [n + ""] + s2[1..];
    var s0 := Split("-" + (n + ("-" + tail)), '-');
    assert ("-" + (n + ("-" + tail)))[1..] == n + ("-" + tail);
    assert s0 == [""] + s1;
    SplitPrefix(TXN_PREFIX, "-" + (n + ("-" + tail)), '-');
  }

  /** Transaction ids made at different clock readings differ. */
  lemma TxnIdDeterminesClock(a: nat, x: string, b: nat, y: string)
    requires GenerateTxnId(a, x) == GenerateTxnId(b, y)
    ensures a == b
  {
    TxnIdFields(a, x);
    TxnIdFields(b, y);
    NatToStringInjective(a, b);
  }

  predicate Succeeded(reply: ProviderReply) {
    reply.Replied? && reply.status == "Success"
  }

  /**
   * The message of the error the catch block receives when the reply is not a
   * success: the provider's message or `fallback` for a reply
   * (`new Error(message || fallback)`), the client's own message otherwise.
   */
  function CaughtMessage(reply: ProviderReply, fallback: string): (m: string)
    requires !Succeeded(reply)
    ensures reply.Replied? && fallback != "" ==> m != ""
    ensures reply.Replied? && Truthy(reply.message) ==> m == reply.message.value
  {
    match reply
    case Replied(_, message, _) => OrDefault(message, fallback)
    case TransportError(errorMessage) => errorMessage
  }

  /** The body `initiateVerification` posts: hashed uid, consent, and an X509 certificate only for biometrics. */
  function InitiateCall(request: VerificationRequest, txnId: string, sha256Hex: string -> string): (c: ProviderCall)
    ensures c.PostGenerateOtp? && c.uid == sha256Hex(request.aadhaarNumber) && c.newTxnId == txnId && c.consent == "Y"
    ensures c.certificateType == "X509" <==> request.verificationType == TYPE_BIOMETRIC
  {
    PostGenerateOtp(sha256Hex(request.aadhaarNumber), txnId, "Y",
                if request.verificationType == TYPE_BIOMETRIC then "X509" else "NA")
  }

  /**
   * The response of `initiateVerification`: never verified, successful exactly
   * when the provider says "Success", a non-empty error otherwise, always
   * carrying the generated transaction id.
   */
  function InitiateResponse(txnId: string, reply: ProviderReply): (r: VerificationResponse)
    ensures !r.verified && r.holder.None? && r.txnId == txnId
    ensures r.success <==> Succeeded(reply)
    ensures r.success ==> r.error.None?
    ensures !r.success ==> r.error.Some? && r.error.value != ""
  {
    if Succeeded(reply) then VerificationResponse(true, false, None, None, OrDefault(Some(txnId), ""))
    else
      var m := CaughtMessage(reply, "Failed to initiate verification");
      VerificationResponse(false, false, None, Some(OrDefault(Some(m), "Verification failed")),
                           OrDefault(Some(txnId), ""))
  }

  /** The log entry of an attempt that reached the provider, with `txnId || ""`. */
  function AttemptEntry(request: VerificationRequest, status: string, error: Option<string>,
                        txnId: Option<string>): (e: LogEntry)
    ensures e.aadhaarNumber == request.aadhaarNumber && e.verificationType == request.verificationType
    ensures e.verificationStatus == status && e.errorMessage == error
    ensures e.txnId == (if Truthy(txnId) then txnId.value else "")
    ensures e.ipAddress == "" && e.userAgent == ""
  {
    LogEntry(request.aadhaarNumber, request.verificationType, status, error, OrDefault(txnId, ""), "", "")
  }

  /**
   * The entry a call writes: the success status with no error, or FAILED with the
   * caught message (`"Unknown error"` when that message is empty).
   */
  function OutcomeEntry(request: VerificationRequest, successStatus: string, throwFallback: string,
                        txnId: Option<string>, reply: ProviderReply): (e: LogEntry)
    ensures Succeeded(reply) ==> e.verificationStatus == successStatus && e.errorMessage.None?
    ensures !Succeeded(reply) ==> e.verificationStatus == STATUS_FAILED
                                  && e.errorMessage.Some? && e.errorMessage.value != ""
    ensures e.txnId == (if Truthy(txnId) then txnId.value else "")
  {
    if Succeeded(reply) then AttemptEntry(request, successStatus, None, txnId)
    else AttemptEntry(request, STATUS_FAILED,
                      Some(OrDefault(Some(CaughtMessage(reply, throwFallback)), "Unknown error")), txnId)
  }

  /**
   * The response of `verifyOTP` and `verifyBiometric` once the argument check
   * passed: success and verified together with the holder's profile on a
   * provider "Success", both false with a non-empty error otherwise; the
   * request's transaction id (or "") is echoed either way.
   */
  function VerifyResponse(request: VerificationRequest, reply: ProviderReply, fallback: string): (r: VerificationResponse)
    requires fallback != ""
    ensures r.success == r.verified
    ensures r.verified <==> Succeeded(reply)
    ensures r.verified ==> r.holder == Some(reply.holder) && r.error.None?
    ensures !r.verified ==> r.holder.None? && r.error.Some? && r.error.value != ""
    ensures r.txnId == (if Truthy(request.txnId) then request.txnId.value else "")
  {
    if Succeeded(reply) then
      VerificationResponse(true, true, Some(reply.holder), None, OrDefault(request.txnId, ""))
    else
      VerificationResponse(false, false, None,
                           Some(OrDefault(Some(CaughtMessage(reply, fallback)), fallback)),
                           OrDefault(request.txnId, ""))
  }

  /** The verification log, as written through the store. */
  class VerificationLog {
    var entries: seq<LogEntry>

    constructor ()
      ensures entries == []
    {
      entries := [];
    }

    /** `createAadhaarVerificationLog`: appends the entry when the store accepts the write. */
    method Write(e: LogEntry, accepted: bool)
      modifies this
      ensures entries == old(entries) + (if accepted then [e] else [])
    {
      if accepted {
        entries := entries + [e];
      }
    }
  }

  class AadhaarService {
    const log: VerificationLog

    constructor (log: VerificationLog)
      ensures this.log == log
    {
      this.log := log;
    }

    /** Writes one attempt to the log; a rejected write is swallowed. */
    method LogVerificationAttempt(request: VerificationRequest, status: string, error: Option<string>,
                                  txnId: Option<string>, writeAccepted: bool)
      modifies log
      ensures log.entries == old(log.entries) + (if writeAccepted then [AttemptEntry(request, status, error, txnId)] else [])
    {
      log.Write(AttemptEntry(request, status, error, txnId), writeAccepted);
    }

    /**
     * `initiateVerification`: generates a transaction id, asks the provider to
     * send an OTP and logs OTP_SENT or FAILED.
     */
    method InitiateVerification(request: VerificationRequest, now: nat, random36: string,
                                sha256Hex: string -> string, reply: ProviderReply, writeAccepted: bool)
      returns (r: VerificationResponse, call: ProviderCall)
      modifies log
      ensures call == InitiateCall(request, GenerateTxnId(now, random36), sha256Hex)
      ensures r == InitiateResponse(GenerateTxnId(now, random36), reply)
      ensures log.entries == old(log.entries) +
                (if writeAccepted
                 then [OutcomeEntry(request, STATUS_OTP_SENT, "Failed to initiate verification",
                                    Some(GenerateTxnId(now, random36)), reply)]
                 else [])
    {
      var txnId := GenerateTxnId(now, random36);
      call := InitiateCall(request, txnId, sha256Hex);
      if Succeeded(reply) {
        LogVerificationAttempt(request, STATUS_OTP_SENT, None, Some(txnId), writeAccepted);
        r := VerificationResponse(true, false, None, None, OrDefault(Some(txnId), ""));
      } else {
        var message := CaughtMessage(reply, "Failed to initiate verification");
        LogVerificationAttempt(request, STATUS_FAILED, Some(OrDefault(Some(message), "Unknown error")),
                               Some(txnId), writeAccepted);
        r := VerificationResponse(false, false, None, Some(OrDefault(Some(message), "Verification failed")),
                                  OrDefault(Some(txnId), ""));
      }
    }

    /**
     * `verifyOTP`: rejects a missing or empty OTP before any provider call or
     * log write; otherwise submits it and logs VERIFIED or FAILED.
     */
    method VerifyOtp(request: VerificationRequest, sha256Hex: string -> string, reply: ProviderReply,
                     writeAccepted: bool)
      returns (r: Outcome, call: Option<ProviderCall>)
      modifies log
      ensures !Truthy(request.otp) ==> r == Thrown("OTP is required") && call.None? && log.entries == old(log.entries)
      ensures Truthy(request.otp) ==>
                && call == Some(PostVerifyOtp(request.txnId, request.otp.value, sha256Hex(request.aadhaarNumber)))
                && r == Returned(VerifyResponse(request, reply, "OTP verification failed"))
                && log.entries == old(log.entries) +
                     (if writeAccepted
                      then [OutcomeEntry(request, STATUS_VERIFIED, "OTP verification failed", request.txnId, reply)]
                      else [])
    {
      if !Truthy(request.otp) {
        return Thrown("OTP is required"), None;
      }
      call := Some(PostVerifyOtp(request.txnId, request.otp.value, sha256Hex(request.aadhaarNumber)));
      var response := VerifyAndLog(request, reply, "OTP verification failed", writeAccepted);
      r := Returned(response);
    }

    /**
     * `verifyBiometric`: rejects missing or empty biometric data before any
     * provider call or log write; otherwise submits it with an X509
     * certificate type and logs VERIFIED or FAILED.
     */
    method VerifyBiometric(request: VerificationRequest, sha256Hex: string -> string, reply: ProviderReply,
                           writeAccepted: bool)
      returns (r: Outcome, call: Option<ProviderCall>)
      modifies log
      ensures !Truthy(request.biometricData) ==>
                r == Thrown("Biometric data is required") && call.None? && log.entries == old(log.entries)
      ensures Truthy(request.biometricData) ==>
                && call == Some(PostVerifyBiometric(request.txnId, sha256Hex(request.aadhaarNumber),
                                                request.biometricData.value, "X509"))
                && r == Returned(VerifyResponse(request, reply, "Biometric verification failed"))
                && log.entries == old(log.entries) +
                     (if writeAccepted
                      then [OutcomeEntry(request, STATUS_VERIFIED, "Biometric verification failed", request.txnId, reply)]
                      else [])
    {
      if !Truthy(request.biometricData) {
        return Thrown("Biometric data is required"), None;
      }
      call := Some(PostVerifyBiometric(request.txnId, sha256Hex(request.aadhaarNumber),
                                   request.biometricData.value, "X509"));
      var response := VerifyAndLog(request, reply, "Biometric verification failed", writeAccepted);
      r := Returned(response);
    }

    /** The shared tail of both verify calls: log the outcome, then build the response. */
    method VerifyAndLog(request: VerificationRequest, reply: ProviderReply, fallback: string, writeAccepted: bool)
      returns (r: VerificationResponse)
      requires fallback != ""
      modifies log
      ensures r == VerifyResponse(request, reply, fallback)
      ensures log.entries == old(log.entries) +
                (if writeAccepted then [OutcomeEntry(request, STATUS_VERIFIED, fallback, request.txnId, reply)] else [])
    {
      if Succeeded(reply) {
        LogVerificationAttempt(request, STATUS_VERIFIED, None, request.txnId, writeAccepted);
        r := VerificationResponse(true, true, Some(reply.holder), None, OrDefault(request.txnId, ""));
      } else {
        var message := CaughtMessage(reply, fallback);
        LogVerificationAttempt(request, STATUS_FAILED, Some(OrDefault(Some(message), "Unknown error")),
                               request.txnId, writeAccepted);
        r := VerificationResponse(false, false, None, Some(OrDefault(Some(message), fallback)),
                                  OrDefault(request.txnId, ""));
      }
    }
  }
}
