/**
 * The application's flat configuration store ("app_settings" shared preferences)
 * and the three things the app does with it: read the lamp's Bluetooth name and
 * the camera id with defaults (AppConfig), check the admin PIN, and save the
 * settings dialog.
 *
 * The store is a map from keys to strings; every value the app writes is a string.
 */
module Config {
  import opened Wrappers

  type Prefs = map<string, string>

  const BluetoothNameKey := "BLUETOOTH_NAME"
  const EpicamIdKey := "EPICAM_ID"
  const PinCodeKey := "PIN_CODE"

  const DefaultBluetoothName := "ESP32"
  const DefaultEpicamIdText := "1"
  const DefaultEpicamId := 1
  const DefaultPin := "1234"

  /** Bounds of Kotlin's 32-bit `Int`. */
  const MinInt := -0x8000_0000
  const MaxInt := 0x7fff_ffff

  /** `getString(key, default)`: the stored string, or the default when the key is absent. */
  function GetString(prefs: Prefs, key: string, default: string): string {
    if key in prefs then prefs[key] else default
  }

  // ---------------------------------------------------------------------------
  // AppConfig.getBluetoothName

  /** The name of the lamp the scanner looks for. */
  function BluetoothName(prefs: Prefs): (name: string)
    ensures BluetoothNameKey in prefs ==> name == prefs[BluetoothNameKey]
    ensures BluetoothNameKey !in prefs ==> name == "ESP32"
  {
    GetString(prefs, BluetoothNameKey, DefaultBluetoothName)
  }

  // ---------------------------------------------------------------------------
  // Kotlin's String.toIntOrNull() in radix 10

  predicate IsDigit(c: char) {
    '0' <= c <= '9'
  }

  function DigitValue(c: char): (d: nat)
    requires IsDigit(c)
    ensures d < 10
  {
    (c as int) - ('0' as int)
  }

  predicate AllDigits(s: string) {
    forall i :: 0 <= i < |s| ==> IsDigit(s[i])
  }

  /** The number a string of decimal digits denotes (most significant digit first). */
  function DecimalValue(ds: string): nat
    requires AllDigits(ds)
  {
    if ds == [] then 0 else DecimalValue(ds[..|ds| - 1]) * 10 + DigitValue(ds[|ds| - 1])
  }

  /**
   * Reference meaning of a decimal integer literal: an optional sign `+` or `-`
   * followed by at least one digit, with no range limit.
   */
  function LiteralValue(s: string): Option<int> {
    if |s| >= 2 && (s[0] == '-' || s[0] == '+') && AllDigits(s[1..]) then
      var magnitude: int := DecimalValue(s[1..]);
      Some(if s[0] == '-' then -magnitude else magnitude)
    else if |s| >= 1 && AllDigits(s) then
      Some(DecimalValue(s))
    else
      None
  }

  /**
   * The digit loop of toIntOrNull: accumulates the magnitude of s[i..] onto `acc`
   * and gives up as soon as a character is not a digit or the magnitude passes
   * `limit`, so no intermediate value ever leaves the Int range.
   */
  function Magnitude(s: string, i: nat, acc: nat, limit: nat): (r: Option<nat>)
    requires i <= |s| && acc <= limit
    ensures r.Some? ==> r.value <= limit
    decreases |s| - i
  {
    if i == |s| then Some(acc)
    else if !IsDigit(s[i]) then None
    else
      var next := acc * 10 + DigitValue(s[i]);
      if next > limit then None else Magnitude(s, i + 1, next, limit)
  }

  /**
   * `toIntOrNull()`: a leading character below '0' must be a sign followed by
   * at least one more character; the result is null for anything that is not
   * a literal or whose value does not fit in an Int.
   */
  function ToIntOrNull(s: string): (r: Option<int>)
    ensures r.Some? ==> MinInt <= r.value <= MaxInt
  {
    if |s| == 0 then None
    else if s[0] < '0' then
      if |s| == 1 then None
      else if s[0] == '-' then
        match Magnitude(s, 1, 0, -MinInt)
        case Some(m) => Option<int>.Some(-(m as int))
        case None => None
      else if s[0] == '+' then
        match Magnitude(s, 1, 0, MaxInt)
        case Some(m) => Some(m)
        case None => None
      else None
    else
      match Magnitude(s, 0, 0, MaxInt)
      case Some(m) => Some(m)
      case None => None
  }

  /** A prefix of a digit string never denotes more than the whole string. */
  lemma {:induction false} PrefixValueBound(ds: string, k: nat)
    requires AllDigits(ds) && k <= |ds|
    ensures AllDigits(ds[..k]) && DecimalValue(ds[..k]) <= DecimalValue(ds)
    decreases |ds| - k
  {
    if k < |ds| {
      var init := ds[..|ds| - 1];
      assert init[..k] == ds[..k];
      PrefixValueBound(init, k);
    } else {
      assert ds[..k] == ds;
    }
  }

  /** The digit loop computes the value of the remaining digits exactly when it fits under the limit. */
  lemma {:induction false} MagnitudeMeaning(s: string, start: nat, i: nat, acc: nat, limit: nat)
    requires start <= i <= |s| && acc <= limit
    requires AllDigits(s[start..i]) && acc == DecimalValue(s[start..i])
    ensures Magnitude(s, i, acc, limit) ==
      if AllDigits(s[start..]) && DecimalValue(s[start..]) <= limit then Some(DecimalValue(s[start..])) else None
    decreases |s| - i
  {
    var tail := s[start..];
    if i == |s| {
      assert s[start..i] == tail;
    } else if !IsDigit(s[i]) {
      assert tail[i - start] == s[i];
    } else {
      var next := acc * 10 + DigitValue(s[i]);
      var done := s[start..i + 1];
      assert done[..|done| - 1] == s[start..i];
      assert AllDigits(done) && DecimalValue(done) == next;
      if next > limit {
        if AllDigits(tail) {
          assert tail[..i + 1 - start] == done;
          PrefixValueBound(tail, i + 1 - start);
        }
      } else {
        MagnitudeMeaning(s, start, i + 1, next, limit);
      }
    }
  }

  /** toIntOrNull yields exactly the literal's value when the text is a literal in Int range, and null otherwise. */
  lemma ToIntOrNullMeaning(s: string)
    ensures ToIntOrNull(s) ==
      match LiteralValue(s)
      case Some(v) => if MinInt <= v <= MaxInt then Some(v) else None
      case None => None
  {
    if |s| >= 1 {
      if s[0] < '0' {
        if |s| >= 2 && (s[0] == '-' || s[0] == '+') {
          assert s[1..1] == [];
          MagnitudeMeaning(s, 1, 1, 0, if s[0] == '-' then -MinInt else MaxInt);
        }
        assert !IsDigit(s[0]);
      } else {
        assert s[0..0] == [] && s[0..] == s;
        MagnitudeMeaning(s, 0, 0, 0, MaxInt);
      }
    }
  }

  // ---------------------------------------------------------------------------
  // AppConfig.getEpicamId

  /** The camera id: the stored EPICAM_ID read as an Int, falling back to 1. */
  function EpicamId(prefs: Prefs): (id: int)
    ensures MinInt <= id <= MaxInt
    ensures EpicamIdKey in prefs && ToIntOrNull(prefs[EpicamIdKey]).None? ==> id == 1
  {
    ToIntOrNull(GetString(prefs, EpicamIdKey, DefaultEpicamIdText)).GetOr(DefaultEpicamId)
  }

  /** A stored literal that fits in an Int is the camera id. */
  lemma EpicamIdParsed(prefs: Prefs)
    requires EpicamIdKey in prefs && LiteralValue(prefs[EpicamIdKey]).Some?
    requires MinInt <= LiteralValue(prefs[EpicamIdKey]).value <= MaxInt
    ensures EpicamId(prefs) == LiteralValue(prefs[EpicamIdKey]).value
  {
    ToIntOrNullMeaning(prefs[EpicamIdKey]);
  }

  /** A missing key, a non-literal (empty, non-numeric) or an out-of-range literal gives 1. */
  lemma EpicamIdFallback(prefs: Prefs)
    requires EpicamIdKey !in prefs
      || LiteralValue(prefs[EpicamIdKey]).None?
      || !(MinInt <= LiteralValue(prefs[EpicamIdKey]).value <= MaxInt)
    ensures EpicamId(prefs) == 1
  {
    if EpicamIdKey in prefs {
      ToIntOrNullMeaning(prefs[EpicamIdKey]);
    } else {
      ToIntOrNullMeaning(DefaultEpicamIdText);
    }
  }

  /** Appending a digit shifts the value one decimal place. */
  lemma DecimalValueAppend(ds: string, c: char)
    requires AllDigits(ds) && IsDigit(c)
    ensures AllDigits(ds + [c]) && DecimalValue(ds + [c]) == DecimalValue(ds) * 10 + DigitValue(c)
  {
    assert (ds + [c])[..|ds|] == ds;
  }

  /** "2147483648" is one more than the largest Int. */
  lemma OverflowLiteral()
    ensures LiteralValue("2147483648") == Some(MaxInt + 1)
    ensures LiteralValue("-2147483648") == Some(MinInt)
  {
    assert "21" == "2" + ['1'];
    DecimalValueAppend("2", '1');
    assert "214" == "21" + ['4'];
    DecimalValueAppend("21", '4');
    assert "2147" == "214" + ['7'];
    DecimalValueAppend("214", '7');
    assert "21474" == "2147" + ['4'];
    DecimalValueAppend("2147", '4');
    assert "214748" == "21474" + ['8'];
    DecimalValueAppend("21474", '8');
    assert "2147483" == "214748" + ['3'];
    DecimalValueAppend("214748", '3');
    assert "21474836" == "2147483" + ['6'];
    DecimalValueAppend("2147483", '6');
    assert "214748364" == "21474836" + ['4'];
    DecimalValueAppend("21474836", '4');
    assert "2147483648" == "214748364" + ['8'];
    DecimalValueAppend("214748364", '8');
    assert "-2147483648"[1..] == "2147483648";
  }

  /** An overflowing id falls back to 1, while Int.MIN_VALUE itself is read. */
  lemma EpicamIdOverflowExamples()
    ensures EpicamId(map[EpicamIdKey := "2147483648"]) == 1
    ensures EpicamId(map[EpicamIdKey := "-2147483648"]) == MinInt
  {
    OverflowLiteral();
    EpicamIdFallback(map[EpicamIdKey := "2147483648"]);
    EpicamIdParsed(map[EpicamIdKey := "-2147483648"]);
  }

  /** Empty, non-numeric and sign-only texts, and a missing key, give 1. */
  lemma EpicamIdMalformedExamples()
    ensures EpicamId(map[EpicamIdKey := ""]) == 1
    ensures EpicamId(map[EpicamIdKey := "abc"]) == 1
    ensures EpicamId(map[EpicamIdKey := "-"]) == 1
    ensures EpicamId(map[]) == 1
  {
    EpicamIdFallback(map[EpicamIdKey := ""]);
    assert !IsDigit("abc"[0]);
    EpicamIdFallback(map[EpicamIdKey := "abc"]);
    EpicamIdFallback(map[EpicamIdKey := "-"]);
    EpicamIdFallback(map[]);
  }

  /** A leading '+' is accepted. */
  lemma EpicamIdPlusExample()
    ensures EpicamId(map[EpicamIdKey := "+42"]) == 42
  {
    assert "42" == "4" + ['2'];
    DecimalValueAppend("4", '2');
    assert "+42"[1..] == "42";
    EpicamIdParsed(map[EpicamIdKey := "+42"]);
  }

  /** The decimal digits of a natural number, most significant first, no leading zeros. */
  function NatDigits(m: nat): string
    decreases m
  {
    if m < 10 then [('0' as int + m) as char] else NatDigits(m / 10) + [('0' as int + m % 10) as char]
  }

  /** Kotlin's `Int.toString()`: the text a user types for the id `n`. */
  function IntToString(n: int): string {
    if n < 0 then "-" + NatDigits(-n) else NatDigits(n)
  }

  lemma {:induction false} NatDigitsValue(m: nat)
    ensures |NatDigits(m)| >= 1 && AllDigits(NatDigits(m)) && DecimalValue(NatDigits(m)) == m
    decreases m
  {
    if m >= 10 {
      NatDigitsValue(m / 10);
      var ds := NatDigits(m);
      assert ds[..|ds| - 1] == NatDigits(m / 10);
    }
  }

  /** The decimal text of any Int denotes exactly that Int. */
  lemma IntToStringLiteral(n: int)
    ensures LiteralValue(IntToString(n)) == Some(n)
  {
    var s := IntToString(n);
    if n < 0 {
      NatDigitsValue(-n);
      assert s[1..] == NatDigits(-n);
    } else {
      NatDigitsValue(n);
      assert IsDigit(s[0]);
    }
  }

  /** Saving the decimal text of an Int as EPICAM_ID makes getEpicamId return that Int. */
  lemma EpicamIdRoundTrip(prefs: Prefs, n: int)
    requires MinInt <= n <= MaxInt
    ensures EpicamId(prefs[EpicamIdKey := IntToString(n)]) == n
  {
    IntToStringLiteral(n);
    ToIntOrNullMeaning(IntToString(n));
  }

  // ---------------------------------------------------------------------------
  // SettingsDialogHelper.showPinDialog

  /** The PIN the dialog compares against, read when the dialog opens. */
  function StoredPin(prefs: Prefs): string {
    GetString(prefs, PinCodeKey, DefaultPin)
  }

  /** The OK button runs `onSuccess` exactly when the entered text equals the stored PIN. */
  function PinAccepted(prefs: Prefs, entered: string): (accepted: bool)
    ensures PinCodeKey in prefs ==> (accepted <==> entered == prefs[PinCodeKey])
    ensures PinCodeKey !in prefs ==> (accepted <==> entered == "1234")
  {
    entered == StoredPin(prefs)
  }

  // ---------------------------------------------------------------------------
  // SettingsDialogHelper.showSettingsDialog

  /** The three texts of the settings dialog. */
  datatype Settings = Settings(bluetoothName: string, epicamId: string, pinCode: string)

  /** What the dialog's three fields show when it opens. */
  function SettingsForm(prefs: Prefs): (form: Settings)
    ensures form.bluetoothName == BluetoothName(prefs)
    ensures form.epicamId == (if EpicamIdKey in prefs then prefs[EpicamIdKey] else "1")
    ensures form.pinCode == (if PinCodeKey in prefs then prefs[PinCodeKey] else "1234")
  {
    Settings(GetString(prefs, BluetoothNameKey, DefaultBluetoothName),
             GetString(prefs, EpicamIdKey, DefaultEpicamIdText),
             GetString(prefs, PinCodeKey, DefaultPin))
  }

  /** The store after "Gem" (save): the three keys take the entered texts. */
  function WithSettings(prefs: Prefs, s: Settings): Prefs {
    prefs[BluetoothNameKey := s.bluetoothName][EpicamIdKey := s.epicamId][PinCodeKey := s.pinCode]
  }

  /** After saving, every reader sees the entered texts and no other key changes. */
  lemma SavedSettingsReadBack(prefs: Prefs, s: Settings, other: string)
    requires other != BluetoothNameKey && other != EpicamIdKey && other != PinCodeKey
    ensures var saved := WithSettings(prefs, s);
      && saved.Keys == prefs.Keys + {BluetoothNameKey, EpicamIdKey, PinCodeKey}
      && BluetoothName(saved) == s.bluetoothName
      && SettingsForm(saved) == s
      && (forall entered :: PinAccepted(saved, entered) <==> entered == s.pinCode)
      && (other in saved <==> other in prefs)
      && (other in prefs ==> saved[other] == prefs[other])
  {
  }

  /** Opening the dialog and saving it unedited changes nothing any reader can observe. */
  lemma SaveUneditedForm(prefs: Prefs)
    ensures var saved := WithSettings(prefs, SettingsForm(prefs));
      && BluetoothName(saved) == BluetoothName(prefs)
      && EpicamId(saved) == EpicamId(prefs)
      && StoredPin(saved) == StoredPin(prefs)
      && SettingsForm(saved) == SettingsForm(prefs)
  {
    var saved := WithSettings(prefs, SettingsForm(prefs));
    assert saved[EpicamIdKey] == GetString(prefs, EpicamIdKey, DefaultEpicamIdText);
  }

  /** The in-memory preference store that the dialog edits. */
  class Preferences {
    var entries: Prefs

    constructor (initial: Prefs)
      ensures entries == initial
    {
      entries := initial;
    }

    /** `editor.putString(key, value)`, committed by `apply()`. */
    method PutString(key: string, value: string)
      modifies this
      ensures entries == old(entries)[key := value]
    {
      entries := entries[key := value];
    }

    /** The save button: three putString calls with the dialog's texts. */
    method SaveSettings(bluetoothName: string, epicamId: string, pinCode: string)
      modifies this
      ensures entries == WithSettings(old(entries), Settings(bluetoothName, epicamId, pinCode))
      ensures forall k :: k in old(entries) && k !in {BluetoothNameKey, EpicamIdKey, PinCodeKey} ==>
        k in entries && entries[k] == old(entries)[k]
    {
      PutString(BluetoothNameKey, bluetoothName);
      PutString(EpicamIdKey, epicamId);
      PutString(PinCodeKey, pinCode);
    }
  }
}
