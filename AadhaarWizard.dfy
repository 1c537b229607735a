/**
 * The client's Aadhaar verification wizard
 * (client/src/components/aadhaar-verification.tsx): a four-step state
 * machine over the component's state fields, driven by the user's edits and
 * clicks and by the outcomes of its three requests.
 *
 * Each user action requires that the control it uses is on screen and
 * enabled (`Controls`); each request outcome requires that its request is in
 * flight. The biometric capture itself (WebAuthn) is an input.
 */
module AadhaarWizard {
  import opened Wrappers
  import opened Text
  import opened Seqs

  datatype Step = Initial | OtpEntry | BiometricCapture | Complete

  datatype VerificationType = OTP | BIOMETRIC

  /** The on-screen controls a user can use. */
  datatype Control = AadhaarInput | TypeChoice | StartButton | OtpInput | VerifyOtpButton | CaptureButton

  /** A request the wizard sends to the server. */
  datatype Request =
    | InitiateRequest(aadhaarNumber: string, verificationType: VerificationType)
    | VerifyOtpRequest(aadhaarNumber: string, otp: string, txnId: string)
    | VerifyBiometricRequest(aadhaarNumber: string, biometricData: string, txnId: string)

  predicate AllDigits(s: string) {
    forall i :: 0 <= i < |s| ==> IsDigit(s[i])
  }

  /** `value.replace(/\D/g, "")`: the digits of the input, in order. */
  function DigitsOnly(s: string): (r: string)
    ensures AllDigits(r)
    ensures |r| <= |s|
  {
    Filter(IsDigit, s)
  }

  /** Filtering keeps every digit, in input order, and nothing else. */
  lemma DigitsOnlyExact(s: string)
    ensures forall c :: c in DigitsOnly(s) <==> c in s && IsDigit(c)
    ensures IsSubsequence(DigitsOnly(s), s)
  {
    FilterMembership(IsDigit, s);
    FilterIsSubsequence(IsDigit, s);
  }

  /** A string of digits passes through unchanged; in particular the filter is idempotent. */
  lemma DigitsOnlyIdempotent(s: string)
    ensures AllDigits(s) ==> DigitsOnly(s) == s
    ensures DigitsOnly(DigitsOnly(s)) == DigitsOnly(s)
  {
    if AllDigits(s) {
      FilterKeepsAll(IsDigit, s);
    }
    FilterKeepsAll(IsDigit, DigitsOnly(s));
  }

  /** Filtering a pasted concatenation is filtering each part. */
  lemma DigitsOnlyAppend(a: string, b: string)
    ensures DigitsOnly(a + b) == DigitsOnly(a) + DigitsOnly(b)
  {
    FilterAppend(IsDigit, a, b);
  }

  /** `!aadhaarNumber || aadhaarNumber.length !== 12`, negated: the initiate request may go. */
  predicate AadhaarAccepted(aadhaarNumber: string) {
    aadhaarNumber != "" && Utf16Length(aadhaarNumber) == 12
  }

  /** `!otp || otp.length !== 6`, negated: the verify request may go. */
  predicate OtpAccepted(otp: string) {
    otp != "" && Utf16Length(otp) == 6
  }

  /** Digits are single UTF-16 code units. */
  lemma {:induction false} DigitsUtf16Length(s: string)
    requires AllDigits(s)
    ensures Utf16Length(s) == |s|
    decreases |s|
  {
    if s != [] {
      assert IsDigit(s[0]);
      DigitsUtf16Length(s[1..]);
    }
  }

  /** For the digit strings the inputs hold, the checks are exactly "12 digits" and "6 digits". */
  lemma AcceptedLengths(s: string)
    requires AllDigits(s)
    ensures AadhaarAccepted(s) <==> |s| == 12
    ensures OtpAccepted(s) <==> |s| == 6
  {
    DigitsUtf16Length(s);
  }

  class Wizard {
    var aadhaarNumber: string
    var verificationType: VerificationType
    var otp: string
    var txnId: string
    var step: Step
    var initiatePending: bool
    var verifyOtpPending: bool
    var verifyBiometricPending: bool

    /** The inputs hold only digits, and a request is in flight only from the step that sends it. */
    ghost predicate Valid()
      reads this
    {
      && AllDigits(aadhaarNumber) && AllDigits(otp)
      && (initiatePending ==> step == Initial)
      && (verifyOtpPending ==> step == OtpEntry)
      && (verifyBiometricPending ==> step == BiometricCapture)
    }

    /**
     * The controls rendered and enabled: the inputs of the current step, and
     * its button unless that step's request is in flight; none once complete.
     */
    function Controls(): (r: set<Control>)
      reads this
      ensures step == Complete ==> r == {}
      ensures StartButton in r <==> step == Initial && !initiatePending
      ensures VerifyOtpButton in r <==> step == OtpEntry && !verifyOtpPending
      ensures CaptureButton in r <==> step == BiometricCapture && !verifyBiometricPending
      ensures AadhaarInput in r <==> step == Initial
      ensures OtpInput in r <==> step == OtpEntry
    {
      match step
      case Initial => {AadhaarInput, TypeChoice} + (if initiatePending then {} else {StartButton})
      case OtpEntry => {OtpInput} + (if verifyOtpPending then {} else {VerifyOtpButton})
      case BiometricCapture => if verifyBiometricPending then {} else {CaptureButton}
      case Complete => {}
    }

    predicate AnyPending()
      reads this
    {
      initiatePending || verifyOtpPending || verifyBiometricPending
    }

    /** A completed wizard offers no control and awaits no request, so nothing can move it again. */
    lemma CompleteIsTerminal()
      requires Valid() && step == Complete
      ensures Controls() == {} && !AnyPending()
    {
    }

    constructor ()
      ensures Valid()
      ensures aadhaarNumber == "" && verificationType == OTP && otp == "" && txnId == "" && step == Initial
      ensures !initiatePending && !verifyOtpPending && !verifyBiometricPending
    {
      aadhaarNumber := "";
      verificationType := OTP;
      otp := "";
      txnId := "";
      step := Initial;
      initiatePending := false;
      verifyOtpPending := false;
      verifyBiometricPending := false;
    }

    /** Typing in the Aadhaar field stores the digits of what was typed. */
    method EditAadhaarNumber(raw: string)
      requires Valid() && AadhaarInput in Controls()
      modifies this`aadhaarNumber
      ensures Valid()
      ensures aadhaarNumber == DigitsOnly(raw)
    {
      aadhaarNumber := DigitsOnly(raw);
    }

    method ChooseType(t: VerificationType)
      requires Valid() && TypeChoice in Controls()
      modifies this`verificationType
      ensures Valid()
      ensures verificationType == t
    {
      verificationType := t;
    }

    /** `handleInitiate`: sends the initiate request only for a 12-character Aadhaar number. */
    method HandleInitiate() returns (sent: Option<Request>)
      requires Valid() && StartButton in Controls()
      modifies this`initiatePending
      ensures Valid()
      ensures sent.Some? <==> AadhaarAccepted(aadhaarNumber)
      ensures sent.Some? ==> sent.value == InitiateRequest(aadhaarNumber, verificationType) && initiatePending
      ensures sent.None? ==> initiatePending == old(initiatePending)
    {
      if !AadhaarAccepted(aadhaarNumber) {
        return None;
      }
      initiatePending := true;
      sent := Some(InitiateRequest(aadhaarNumber, verificationType));
    }

    /**
     * The initiate request answered: the transaction id is kept and the
     * wizard moves to OTP entry or biometric capture by the chosen type,
     * whether or not the server reported success.
     */
    method InitiateSucceeded(responseTxnId: string, success: bool)
      requires Valid() && initiatePending
      modifies this`initiatePending, this`txnId, this`step
      ensures Valid()
      ensures !initiatePending && txnId == responseTxnId
      ensures step == (if verificationType == OTP then OtpEntry else BiometricCapture)
    {
      initiatePending := false;
      txnId := responseTxnId;
      if verificationType == OTP {
        step := OtpEntry;
      } else {
        step := BiometricCapture;
      }
    }

    /** The initiate request failed: only the in-flight flag clears. */
    method InitiateFailed()
      requires Valid() && initiatePending
      modifies this`initiatePending
      ensures Valid() && !initiatePending
    {
      initiatePending := false;
    }

    method EditOtp(raw: string)
      requires Valid() && OtpInput in Controls()
      modifies this`otp
      ensures Valid()
      ensures otp == DigitsOnly(raw)
    {
      otp := DigitsOnly(raw);
    }

    /** `handleVerifyOtp`: sends the OTP only when it has 6 characters. */
    method HandleVerifyOtp() returns (sent: Option<Request>)
      requires Valid() && VerifyOtpButton in Controls()
      modifies this`verifyOtpPending
      ensures Valid()
      ensures sent.Some? <==> OtpAccepted(otp)
      ensures sent.Some? ==> sent.value == VerifyOtpRequest(aadhaarNumber, otp, txnId) && verifyOtpPending
      ensures sent.None? ==> verifyOtpPending == old(verifyOtpPending)
    {
      if !OtpAccepted(otp) {
        return None;
      }
      verifyOtpPending := true;
      sent := Some(VerifyOtpRequest(aadhaarNumber, otp, txnId));
    }

    /** The OTP request answered: complete exactly when the response says verified. */
    method VerifyOtpSucceeded(verified: bool)
      requires Valid() && verifyOtpPending
      modifies this`verifyOtpPending, this`step
      ensures Valid() && !verifyOtpPending
      ensures step == (if verified then Complete else old(step))
    {
      verifyOtpPending := false;
      if verified {
        step := Complete;
      }
    }

    method VerifyOtpFailed()
      requires Valid() && verifyOtpPending
      modifies this`verifyOtpPending
      ensures Valid() && !verifyOtpPending
    {
      verifyOtpPending := false;
    }

    /**
     * `handleCaptureBiometric` after the capture: the captured credential
     * (`None` when the capture produced nothing or failed) is sent for
     * verification.
     */
    method CaptureBiometric(captured: Option<string>) returns (sent: Option<Request>)
      requires Valid() && CaptureButton in Controls()
      modifies this`verifyBiometricPending
      ensures Valid()
      ensures sent.Some? <==> captured.Some?
      ensures sent.Some? ==> sent.value == VerifyBiometricRequest(aadhaarNumber, captured.value, txnId)
                             && verifyBiometricPending
      ensures sent.None? ==> verifyBiometricPending == old(verifyBiometricPending)
    {
      if captured.None? {
        return None;
      }
      verifyBiometricPending := true;
      sent := Some(VerifyBiometricRequest(aadhaarNumber, captured.value, txnId));
    }

    /** The biometric request answered: complete exactly when the response says verified. */
    method VerifyBiometricSucceeded(verified: bool)
      requires Valid() && verifyBiometricPending
      modifies this`verifyBiometricPending, this`step
      ensures Valid() && !verifyBiometricPending
      ensures step == (if verified then Complete else old(step))
    {
      verifyBiometricPending := false;
      if verified {
        step := Complete;
      }
    }

    method VerifyBiometricFailed()
      requires Valid() && verifyBiometricPending
      modifies this`verifyBiometricPending
      ensures Valid() && !verifyBiometricPending
    {
      verifyBiometricPending := false;
    }
  }
}
