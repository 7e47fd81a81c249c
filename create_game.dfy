/**
 * The create-game form: its state record, the ordered input validation, the submit
 * transitions around the contract call, and the token balance/symbol read that
 * falls back to a second read-only provider.
 */
module CreateGame {
  import opened JsValues
  import MyGame

  /** The form's single state record. Amounts and the timeout are kept as the text entered. */
  datatype FormState = FormState(
    player1Choice: bool, timeoutDuration: string, betAmount: string, tokenAddress: string,
    loading: bool, error: Option<string>, success: Option<string>,
    tokenBalance: string, tokenSymbol: string)

  /** What the wallet hook reports at the time of an event. */
  datatype Wallet = Wallet(address: Option<string>, isConnected: bool)

  /** A token's details as read from one provider, the balance already in display units. */
  datatype TokenDetails = TokenDetails(balance: string, symbol: string)

  /** The read-only providers, in the order they may be asked. */
  datatype Provider = Primary | Fallback

  /** `parseFloat` or `parseInt` of the page: text to a number, NaN when nothing parses. */
  type Parser = string -> Num

  /** The timeouts the select offers, in seconds, and the one the form starts with. */
  const TimeoutOptions: seq<string> := ["300", "3600", "86400"]
  const DefaultTimeout: string := "3600"
  const MinTimeoutSeconds: real := 300.0

  const SuccessMessage: string := "Game created successfully!"
  const CreateFailedMessage: string := "Failed to create game"
  const TokenReadFailedMessage: string := "Failed to fetch token details"

  /** The state the form starts in, on the registry's first token. */
  function InitialState(): (s: FormState)
    ensures s.tokenAddress == MyGame.Registry[0].address && s.tokenSymbol == MyGame.Registry[0].key
    ensures MyGame.TokenName(s.tokenAddress) == s.tokenSymbol
    ensures s.timeoutDuration == DefaultTimeout && s.timeoutDuration in TimeoutOptions
    ensures s.betAmount == "" && !s.player1Choice && s.tokenBalance == "0"
    ensures !s.loading && s.error == None && s.success == None
  {
    MyGame.TokenNameOfRegistered(0);
    FormState(false, DefaultTimeout, "", MyGame.Registry[0].address, false, None, None, "0", "STABLEAI")
  }

  /** The checks of `validateInput`, each with the message it shows. */
  datatype ValidationError = NotConnected | BetNotPositive | InsufficientBalance(symbol: string) | TimeoutTooShort
  {
    function Message(): (r: string)
      ensures r != []
      ensures this.InsufficientBalance? ==> |r| == |symbol| + 21 && r[13..|r| - 8] == symbol
      ensures this.InsufficientBalance? ==> r[..13] == "Insufficient " && r[|r| - 8..] == " balance"
    {
      match this
      case NotConnected => "Please connect your wallet"
      case BetNotPositive => "Bet amount must be positive"
      case InsufficientBalance(symbol) => "Insufficient " + symbol + " balance"
      case TimeoutTooShort => "Timeout must be at least 5 minutes"
    }
  }

  /** Different failed checks show different messages, so the message tells which check failed. */
  lemma MessagesIdentifyCheck(e1: ValidationError, e2: ValidationError)
    requires e1 != e2
    ensures e1.Message() != e2.Message()
  {
    if e1.InsufficientBalance? && e2.InsufficientBalance? {
      var m1, m2 := e1.Message(), e2.Message();
      if |e1.symbol| == |e2.symbol| {
        var i :| 0 <= i < |e1.symbol| && e1.symbol[i] != e2.symbol[i];
        assert m1[13 + i] == e1.symbol[i];
        assert m2[13 + i] == e2.symbol[i];
      } else {
        assert |m1| != |m2|;
      }
    } else {
      assert e1.Message()[0] != e2.Message()[0];
    }
  }

  predicate BetNotPositiveFails(s: FormState, parseFloat: Parser)
  {
    s.betAmount == "" || LessEq(parseFloat(s.betAmount), Finite(0.0))
  }

  predicate BalanceFails(s: FormState, parseFloat: Parser)
  {
    Less(parseFloat(s.tokenBalance), parseFloat(s.betAmount))
  }

  predicate TimeoutFails(s: FormState, parseInt: Parser)
  {
    s.timeoutDuration == "" || Less(parseInt(s.timeoutDuration), Finite(MinTimeoutSeconds))
  }

  /** `validateInput`: the first failing check, in the order connection, bet, balance, timeout. */
  function ValidateInput(isConnected: bool, s: FormState, parseFloat: Parser, parseInt: Parser): (r: Option<ValidationError>)
    ensures r == Some(NotConnected) <==> !isConnected
    ensures r == Some(BetNotPositive) <==> isConnected && BetNotPositiveFails(s, parseFloat)
    ensures r == Some(InsufficientBalance(s.tokenSymbol)) <==>
      isConnected && !BetNotPositiveFails(s, parseFloat) && BalanceFails(s, parseFloat)
    ensures r == Some(TimeoutTooShort) <==>
      isConnected && !BetNotPositiveFails(s, parseFloat) && !BalanceFails(s, parseFloat) && TimeoutFails(s, parseInt)
    ensures r == None <==>
      isConnected && !BetNotPositiveFails(s, parseFloat) && !BalanceFails(s, parseFloat) && !TimeoutFails(s, parseInt)
  {
    if !isConnected then Some(NotConnected)
    else if s.betAmount == "" || LessEq(parseFloat(s.betAmount), Finite(0.0)) then Some(BetNotPositive)
    else if Less(parseFloat(s.tokenBalance), parseFloat(s.betAmount)) then Some(InsufficientBalance(s.tokenSymbol))
    else if s.timeoutDuration == "" || Less(parseInt(s.timeoutDuration), Finite(MinTimeoutSeconds)) then Some(TimeoutTooShort)
    else None
  }

  predicate IsDigits(s: string)
  {
    forall i :: 0 <= i < |s| ==> '0' <= s[i] <= '9'
  }

  /** The value of a string of decimal digits. */
  function DecimalValue(s: string): nat
    requires IsDigits(s)
  {
    if s == [] then 0 else 10 * DecimalValue(s[..|s| - 1]) + (s[|s| - 1] as int - '0' as int)
  }

  /**
   * What `parseInt` is known to do on non-empty strings of at most 15 decimal digits:
   * their values lie below 2^53, so a double holds them exactly.
   */
  ghost predicate ReadsDigits(parseInt: Parser)
  {
    forall s :: s != "" && |s| <= 15 && IsDigits(s) ==> parseInt(s) == Finite(DecimalValue(s) as real)
  }

  /**
   * The assumption leaves `parseInt` free where JavaScript's differs from exact decimal
   * reading: NaN on the empty string, and a rounded double beyond 15 digits.
   */
  lemma ReadsDigitsAllowsJsParseInt()
    ensures exists parseInt: Parser ::
      parseInt("") == NaN && parseInt("9007199254740993") == Finite(9007199254740992.0) && ReadsDigits(parseInt)
  {
    var parseInt: Parser := s =>
      if s == "9007199254740993" then Finite(9007199254740992.0)
      else if s != "" && IsDigits(s) then Finite(DecimalValue(s) as real)
      else NaN;
    assert |"9007199254740993"| == 16;
    assert parseInt("") == NaN && parseInt("9007199254740993") == Finite(9007199254740992.0) && ReadsDigits(parseInt);
  }

  /** Appending a digit multiplies the value by ten and adds the digit. */
  lemma DecimalValueAppend(s: string, d: char)
    requires IsDigits(s) && '0' <= d <= '9'
    ensures IsDigits(s + [d])
    ensures DecimalValue(s + [d]) == 10 * DecimalValue(s) + (d as int - '0' as int)
  {
    assert (s + [d])[..|s|] == s;
  }

  lemma Value300()
    ensures IsDigits("300") && DecimalValue("300") == 300
  {
    DecimalValueAppend("", '3');
    assert "3" == "" + ['3'];
    DecimalValueAppend("3", '0');
    assert "30" == "3" + ['0'];
    DecimalValueAppend("30", '0');
    assert "300" == "30" + ['0'];
  }

  lemma Value3600()
    ensures IsDigits("3600") && DecimalValue("3600") == 3600
  {
    DecimalValueAppend("", '3');
    assert "3" == "" + ['3'];
    DecimalValueAppend("3", '6');
    assert "36" == "3" + ['6'];
    DecimalValueAppend("36", '0');
    assert "360" == "36" + ['0'];
    DecimalValueAppend("360", '0');
    assert "3600" == "360" + ['0'];
  }

  lemma Value86400()
    ensures IsDigits("86400") && DecimalValue("86400") == 86400
  {
    DecimalValueAppend("", '8');
    assert "8" == "" + ['8'];
    DecimalValueAppend("8", '6');
    assert "86" == "8" + ['6'];
    DecimalValueAppend("86", '4');
    assert "864" == "86" + ['4'];
    DecimalValueAppend("864", '0');
    assert "8640" == "864" + ['0'];
    DecimalValueAppend("8640", '0');
    assert "86400" == "8640" + ['0'];
  }

  /** Every timeout the select offers, the default among them, passes the timeout check. */
  lemma OfferedTimeoutsPass(s: FormState, parseInt: Parser)
    requires ReadsDigits(parseInt)
    requires s.timeoutDuration in TimeoutOptions
    ensures !TimeoutFails(s, parseInt)
  {
    Value300();
    Value3600();
    Value86400();
    var t := s.timeoutDuration;
    assert parseInt(t) == Finite(DecimalValue(t) as real);
  }

  /** The Create Game button is disabled while a submission is in flight or no wallet is connected. */
  predicate CreateButtonDisabled(s: FormState, isConnected: bool)
  {
    s.loading || !isConnected
  }

  /** The error shown after `createGame` throws: its message when truthy, else a fixed text. */
  function CreateFailureMessage(t: Thrown): (r: string)
    ensures r != ""
    ensures Truthy(MessageOf(t)) ==> r == MessageOf(t).value
    ensures !Truthy(MessageOf(t)) ==> r == CreateFailedMessage
  {
    if Truthy(MessageOf(t)) then MessageOf(t).value else CreateFailedMessage
  }

  class CreateGameForm {
    var state: FormState

    constructor ()
      ensures state == InitialState()
    {
      state := InitialState();
    }

    method SetBetAmount(text: string)
      modifies this
      ensures state == old(state).(betAmount := text)
    {
      state := state.(betAmount := text);
    }

    method SelectToken(address: string)
      modifies this
      ensures state == old(state).(tokenAddress := address)
    {
      state := state.(tokenAddress := address);
    }

    method SelectTimeout(seconds: string)
      modifies this
      ensures state == old(state).(timeoutDuration := seconds)
    {
      state := state.(timeoutDuration := seconds);
    }

    method ChooseSide(heads: bool)
      modifies this
      ensures state == old(state).(player1Choice := heads)
    {
      state := state.(player1Choice := heads);
    }

    /**
     * `fetchTokenBalance`, given how a read from each provider would settle. It
     * returns the providers actually asked: none without an address, token or
     * connection; the fallback only after the primary failed. Only when both fail
     * is the error set, and then balance and symbol stay as they were.
     */
    method FetchTokenBalance(wallet: Wallet, primary: Result<TokenDetails>, fallback: Result<TokenDetails>)
      returns (asked: seq<Provider>)
      modifies this
      ensures !Truthy(wallet.address) || old(state).tokenAddress == "" || !wallet.isConnected ==>
        asked == [] && state == old(state)
      ensures Truthy(wallet.address) && old(state).tokenAddress != "" && wallet.isConnected ==>
        match primary
        case Ok(d) =>
          asked == [Primary] && state == old(state).(tokenBalance := d.balance, tokenSymbol := d.symbol)
        case Err(_) =>
          asked == [Primary, Fallback] &&
          match fallback
          case Ok(d) => state == old(state).(tokenBalance := d.balance, tokenSymbol := d.symbol)
          case Err(_) => state == old(state).(error := Some(TokenReadFailedMessage))
    {
      if !Truthy(wallet.address) || state.tokenAddress == "" || !wallet.isConnected {
        return [];
      }
      asked := [Primary];
      match primary {
        case Ok(d) =>
          state := state.(tokenBalance := d.balance, tokenSymbol := d.symbol);
        case Err(_) =>
          asked := asked + [Fallback];
          match fallback {
            case Ok(d) =>
              state := state.(tokenBalance := d.balance, tokenSymbol := d.symbol);
            case Err(_) =>
              state := state.(error := Some(TokenReadFailedMessage));
          }
      }
    }

    /**
     * `handleCreateGame` up to its `await`: a failed validation only shows its
     * message and the contract is not called; otherwise the messages are cleared
     * and the form enters loading, which disables the button.
     */
    method SubmitStarted(wallet: Wallet, parseFloat: Parser, parseInt: Parser) returns (invoked: bool)
      modifies this
      ensures invoked <==> ValidateInput(wallet.isConnected, old(state), parseFloat, parseInt) == None
      ensures !invoked ==>
        state == old(state).(error := Some(ValidateInput(wallet.isConnected, old(state), parseFloat, parseInt).value.Message()))
      ensures invoked ==> state == old(state).(error := None, success := None, loading := true)
      ensures invoked ==> CreateButtonDisabled(state, wallet.isConnected)
    {
      var validationError := ValidateInput(wallet.isConnected, state, parseFloat, parseInt);
      if validationError.Some? {
        state := state.(error := Some(validationError.value.Message()));
        return false;
      }
      state := state.(error := None, success := None, loading := true);
      invoked := true;
    }

    /** `handleCreateGame` after `createGame` settled: success clears the bet, failure keeps it. */
    method SubmitSettled(outcome: Result<()>)
      modifies this
      ensures outcome.Ok? ==> state == old(state).(success := Some(SuccessMessage), loading := false, betAmount := "")
      ensures outcome.Err? ==> state == old(state).(error := Some(CreateFailureMessage(outcome.thrown)), loading := false)
    {
      match outcome {
        case Ok(_) =>
          state := state.(success := Some(SuccessMessage), loading := false, betAmount := "");
        case Err(t) =>
          state := state.(error := Some(CreateFailureMessage(t)), loading := false);
      }
    }

    /** A whole submission with nothing else happening while `createGame` is awaited. */
    method HandleCreateGame(wallet: Wallet, parseFloat: Parser, parseInt: Parser, outcome: Result<()>)
      returns (invoked: bool)
      modifies this
      ensures invoked <==> ValidateInput(wallet.isConnected, old(state), parseFloat, parseInt) == None
      ensures !invoked ==>
        state == old(state).(error := Some(ValidateInput(wallet.isConnected, old(state), parseFloat, parseInt).value.Message()))
      ensures invoked && outcome.Ok? ==>
        state == old(state).(error := None, success := Some(SuccessMessage), loading := false, betAmount := "")
      ensures invoked && outcome.Err? ==>
        state == old(state).(error := Some(CreateFailureMessage(outcome.thrown)), success := None, loading := false)
    {
      invoked := SubmitStarted(wallet, parseFloat, parseInt);
      if invoked {
        SubmitSettled(outcome);
      }
    }

    /** The timer that hides an error message after three seconds. */
    method ErrorTimerFired()
      modifies this
      ensures state == old(state).(error := None)
    {
      state := state.(error := None);
    }

    /** The timer that hides the success message after five seconds. */
    method SuccessTimerFired()
      modifies this
      ensures state == old(state).(success := None)
    {
      state := state.(success := None);
    }
  }
}
