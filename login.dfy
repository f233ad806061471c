/** The sign-in screen: Digital ID / password form, the "forgot password"
    card and the six-cell one-time-password card (Components/Login.tsx). */
module Login {
  import opened Strings

  /** The code the demo accepts. */
  const OtpCode: string := "123456"

  /** Number of one-character cells in the OTP card. */
  const OtpLength: nat := 6

  /** Six empty cells: the initial value and the value after a failed check. */
  const EmptyOtp: seq<string> := ["", "", "", "", "", ""]

  /** The three cards the screen can show under its header. */
  datatype Card = LoginCard | ForgotCard | OtpCard

  /** The screens the login screen navigates to. */
  datatype Screen = Dash

  /** What a handler shows or does besides changing state. */
  datatype Effect =
    | Silent
    | Alert(title: string, message: string)
    | Navigate(to: Screen)
      /** An alert whose "OK" button navigates. */
    | AlertThenNavigate(title: string, message: string, to: Screen)

  /** The cards rendered for a pair of mode flags: each of the three cards
      has its own render condition, and for every pair exactly one holds. */
  function VisibleCards(forgotMode: bool, showOtp: bool): (cards: set<Card>)
    ensures |cards| == 1
    ensures OtpCard in cards <==> showOtp
    ensures ForgotCard in cards <==> forgotMode && !showOtp
  {
    (if !forgotMode && !showOtp then {LoginCard} else {})
    + (if forgotMode && !showOtp then {ForgotCard} else {})
    + (if showOtp then {OtpCard} else {})
  }

  /** The one card the flags select. */
  function ShownCard(forgotMode: bool, showOtp: bool): (card: Card)
    ensures VisibleCards(forgotMode, showOtp) == {card}
  {
    if showOtp then OtpCard else if forgotMode then ForgotCard else LoginCard
  }

  /** `cells.join("")`. */
  function Join(cells: seq<string>): string {
    if cells == [] then "" else cells[0] + Join(cells[1..])
  }

  /** Every cell holds at most one character, as each cell's text input
      allows. */
  predicate CellsAtMostOneChar(cells: seq<string>) {
    forall i :: 0 <= i < |cells| ==> |cells[i]| <= 1
  }

  /** Joining cells of at most one character gives at most one character per
      cell; when it gives exactly one per cell, character i is cell i. */
  lemma {:induction false} JoinOfShortCells(cells: seq<string>)
    requires CellsAtMostOneChar(cells)
    ensures |Join(cells)| <= |cells|
    ensures |Join(cells)| == |cells| ==>
              forall i :: 0 <= i < |cells| ==> cells[i] == [Join(cells)[i]]
  {
    if cells != [] {
      var rest := cells[1..];
      JoinOfShortCells(rest);
      if |Join(cells)| == |cells| {
        assert |cells[0]| == 1;
        forall i | 0 <= i < |cells| ensures cells[i] == [Join(cells)[i]] {
          if i > 0 {
            assert cells[i] == rest[i - 1];
          }
        }
      }
    }
  }

  /** Joining one-character cells spells their characters in order. */
  lemma {:induction false} JoinOfSingleChars(cells: seq<string>)
    requires forall i :: 0 <= i < |cells| ==> |cells[i]| == 1
    ensures |Join(cells)| == |cells|
    ensures forall i :: 0 <= i < |cells| ==> Join(cells)[i] == cells[i][0]
  {
    if cells != [] {
      JoinOfSingleChars(cells[1..]);
      forall i | 0 <= i < |cells| ensures Join(cells)[i] == cells[i][0] {
        if i > 0 {
          assert cells[i] == cells[1..][i - 1];
        }
      }
    }
  }

  /** The six cells verify exactly when cell i holds the i-th digit of the
      code; in particular a code with an empty cell never verifies. */
  lemma OtpMatchesIff(cells: seq<string>)
    requires |cells| == OtpLength && CellsAtMostOneChar(cells)
    ensures Join(cells) == OtpCode <==>
              forall i :: 0 <= i < OtpLength ==> cells[i] == [OtpCode[i]]
    ensures (exists i :: 0 <= i < OtpLength && cells[i] == "") ==> Join(cells) != OtpCode
  {
    JoinOfShortCells(cells);
    if forall i :: 0 <= i < OtpLength ==> cells[i] == [OtpCode[i]] {
      JoinOfSingleChars(cells);
      assert Join(cells) == OtpCode;
    }
  }

  /** The state of the Login component. Every handler may run in any state:
      the code does not check which card shows its button. */
  class LoginScreen {
    var digitalId: string
    var password: string
    var forgotMode: bool
    var showOtp: bool
    var otp: seq<string>
    var loading: bool
    var otpLoading: bool
    /** Sign-in timers scheduled and not yet fired. */
    var pendingLogins: nat
    /** Codes handed to `handleVerifyOtp` whose timers have not fired yet,
        oldest first: timers of equal delay fire in the order set. */
    var pendingVerifications: seq<string>

    ghost predicate Valid()
      reads this
    {
      |otp| == OtpLength && CellsAtMostOneChar(otp)
      && (loading ==> pendingLogins > 0)
      && (otpLoading ==> pendingVerifications != [])
    }

    /** The card on screen. */
    function CurrentCard(): Card
      reads this
    {
      ShownCard(forgotMode, showOtp)
    }

    constructor ()
      ensures Valid()
      ensures digitalId == "" && password == ""
      ensures !forgotMode && !showOtp && CurrentCard() == LoginCard
      ensures otp == EmptyOtp
      ensures !loading && !otpLoading
      ensures pendingLogins == 0 && pendingVerifications == []
    {
      digitalId, password := "", "";
      forgotMode, showOtp := false, false;
      otp := EmptyOtp;
      loading, otpLoading := false, false;
      pendingLogins, pendingVerifications := 0, [];
    }

    /** Typing into a Digital ID field. */
    method EditDigitalId(text: string)
      modifies this`digitalId
      ensures digitalId == text
    {
      digitalId := text;
    }

    /** Typing into the password field. */
    method EditPassword(text: string)
      modifies this`password
      ensures password == text
    {
      password := text;
    }

    /** "Sign In": blank fields raise an alert and change nothing; otherwise
        the button starts loading and a sign-in timer is scheduled. */
    method HandleLogin() returns (effect: Effect)
      requires Valid()
      modifies this`loading, this`pendingLogins
      ensures Valid()
      ensures IsBlank(digitalId) || IsBlank(password) ==>
                effect == Alert("Error", "Please enter both Digital ID and Password")
                && loading == old(loading) && pendingLogins == old(pendingLogins)
      ensures !IsBlank(digitalId) && !IsBlank(password) ==>
                effect == Silent && loading && pendingLogins == old(pendingLogins) + 1
    {
      TrimEmptyIffBlank(digitalId);
      TrimEmptyIffBlank(password);
      if Trim(digitalId) == "" || Trim(password) == "" {
        return Alert("Error", "Please enter both Digital ID and Password");
      }
      loading := true;
      pendingLogins := pendingLogins + 1;
      effect := Silent;
    }

    /** The sign-in timer fires: loading stops and the app goes to the
        dashboard. */
    method LoginTimerFires() returns (effect: Effect)
      requires Valid() && pendingLogins > 0
      modifies this`loading, this`pendingLogins
      ensures Valid()
      ensures !loading && pendingLogins == old(pendingLogins) - 1
      ensures effect == Navigate(Dash)
    {
      loading := false;
      pendingLogins := pendingLogins - 1;
      effect := Navigate(Dash);
    }

    /** "Forgot Password?". */
    method OpenForgot()
      modifies this`forgotMode
      ensures forgotMode
      ensures !showOtp ==> CurrentCard() == ForgotCard
    {
      forgotMode := true;
    }

    /** "Back to Login" on the forgot-password card. */
    method BackFromForgot()
      modifies this`forgotMode
      ensures !forgotMode
      ensures !showOtp ==> CurrentCard() == LoginCard
    {
      forgotMode := false;
    }

    /** "Back to Login" on the OTP card clears both flags. */
    method BackFromOtp()
      modifies this`forgotMode, this`showOtp
      ensures !forgotMode && !showOtp
      ensures CurrentCard() == LoginCard
    {
      showOtp := false;
      forgotMode := false;
    }

    /** "Send OTP": a blank Digital ID raises an alert and leaves the OTP card
        closed; otherwise the OTP card opens. */
    method HandleForgot() returns (effect: Effect)
      modifies this`showOtp
      ensures IsBlank(digitalId) ==>
                effect == Alert("Error", "Please enter your Digital ID") && showOtp == old(showOtp)
      ensures !IsBlank(digitalId) ==> effect == Silent && showOtp && CurrentCard() == OtpCard
    {
      TrimEmptyIffBlank(digitalId);
      if Trim(digitalId) == "" {
        return Alert("Error", "Please enter your Digital ID");
      }
      showOtp := true;
      effect := Silent;
    }

    /** `handleVerifyOtp(enteredOtp)`: the verify button starts loading and a
        verification timer for that code is scheduled. */
    method HandleVerifyOtp(enteredOtp: string)
      requires Valid()
      modifies this`otpLoading, this`pendingVerifications
      ensures Valid()
      ensures otpLoading
      ensures pendingVerifications == old(pendingVerifications) + [enteredOtp]
    {
      otpLoading := true;
      pendingVerifications := pendingVerifications + [enteredOtp];
    }

    /** "Verify Code" verifies the cells as they stand. */
    method PressVerify()
      requires Valid()
      modifies this`otpLoading, this`pendingVerifications
      ensures Valid()
      ensures otpLoading
      ensures pendingVerifications == old(pendingVerifications) + [Join(otp)]
    {
      HandleVerifyOtp(Join(otp));
    }

    /** Text typed into OTP cell `index`: only that cell changes, and text
        arriving in the last cell verifies the updated cells at once. */
    method EditOtpCell(index: nat, text: string) returns (autoVerified: bool)
      requires Valid()
      requires index < OtpLength && |text| <= 1
      modifies this`otp, this`otpLoading, this`pendingVerifications
      ensures Valid()
      ensures |otp| == OtpLength && otp[index] == text
      ensures forall j :: 0 <= j < OtpLength && j != index ==> otp[j] == old(otp)[j]
      ensures autoVerified <==> index == OtpLength - 1 && text != ""
      ensures autoVerified ==>
                otpLoading && pendingVerifications == old(pendingVerifications) + [Join(otp)]
      ensures !autoVerified ==>
                otpLoading == old(otpLoading) && pendingVerifications == old(pendingVerifications)
    {
      var newOtp := otp[index := text];
      otp := newOtp;
      autoVerified := index == OtpLength - 1 && text != "";
      if autoVerified {
        HandleVerifyOtp(Join(newOtp));
      }
    }

    /** The oldest verification timer fires: loading stops; the right code
        shows a success alert whose "OK" goes to the dashboard, any other
        code shows an error and empties all six cells. */
    method VerifyTimerFires() returns (effect: Effect)
      requires Valid() && pendingVerifications != []
      modifies this`otp, this`otpLoading, this`pendingVerifications
      ensures Valid()
      ensures !otpLoading && pendingVerifications == old(pendingVerifications)[1..]
      ensures old(pendingVerifications)[0] == OtpCode ==>
                effect == AlertThenNavigate("Success", "OTP verified!", Dash) && otp == old(otp)
      ensures old(pendingVerifications)[0] != OtpCode ==>
                effect == Alert("Error", "Invalid OTP. Try again.") && otp == EmptyOtp
    {
      var enteredOtp := pendingVerifications[0];
      pendingVerifications := pendingVerifications[1..];
      otpLoading := false;
      if enteredOtp == OtpCode {
        effect := AlertThenNavigate("Success", "OTP verified!", Dash);
      } else {
        effect := Alert("Error", "Invalid OTP. Try again.");
        otp := EmptyOtp;
      }
    }
  }
}
