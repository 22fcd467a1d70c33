/** `services/vm_service.py`: VM account names `<app>_<region>_NNN` drawn
    from per-app-and-region counters in the settings file, and the account
    list read from a device's `ls` output. Running the shell command is
    not modelled; its return code and output are parameters. */
module VmService {
  import opened Values
  import opened Text
  import opened ConfigManager

  /** `current_count + 1` raises when the stored counter is not a number. */
  datatype VmError = CounterNotANumber

  /** `f"{app_type}_{region}"` */
  function CounterKey(appType: string, region: string): string
  {
    appType + "_" + region
  }

  /** `counters.get(key, 0) + 1`; booleans count as 0 and 1. */
  function NextNumber(counters: Dict, key: string): Option<int>
  {
    var current := Get(counters, key, VInt(0));
    if IsNumber(current) then Some(NumberOf(current) + 1) else None
  }

  /** `f"{app_type}_{region}_{next_num:03d}"` */
  function AccountName(appType: string, region: string, n: int): string
  {
    CounterKey(appType, region) + "_" + Format03(n)
  }

  /** The number in an account name reads back as the number it was made
      from, so names of one app and region differ exactly when their numbers
      do. */
  lemma AccountNameNumber(appType: string, region: string, n: int, m: int)
    ensures var name := AccountName(appType, region, n);
      name[..|CounterKey(appType, region)| + 1] == CounterKey(appType, region) + "_" &&
      ParseInt(name[|CounterKey(appType, region)| + 1..]) == Some(n)
    ensures AccountName(appType, region, n) == AccountName(appType, region, m) <==> n == m
  {
    var prefix := CounterKey(appType, region) + "_";
    var name := AccountName(appType, region, n);
    assert name == prefix + Format03(n);
    assert name[|prefix|..] == Format03(n);
    Format03RoundTrip(n);
    if AccountName(appType, region, n) == AccountName(appType, region, m) {
      assert Format03(n) == AccountName(appType, region, m)[|prefix|..];
      Format03Injective(n, m);
    }
  }

  /** Generate, increment, generate: the second name carries the next
      number, so the two names differ. */
  lemma GenerateIncrementGenerate(counters: Dict, appType: string, region: string)
    requires NextNumber(counters, CounterKey(appType, region)).Some?
    ensures var key := CounterKey(appType, region);
      var n := NextNumber(counters, key).value;
      NextNumber(counters[key := VInt(n)], key) == Some(n + 1) &&
      AccountName(appType, region, n) != AccountName(appType, region, n + 1)
  {
    var key := CounterKey(appType, region);
    var n := NextNumber(counters, key).value;
    assert NextNumber(counters[key := VInt(n)], key) == Some(n + 1) by {
      assert Get(counters[key := VInt(n)], key, VInt(0)) == VInt(n);
    }
    assert AccountName(appType, region, n) != AccountName(appType, region, n + 1) by {
      AccountNameNumber(appType, region, n, n + 1);
    }
  }

  /** The non-empty stripped lines of the output, in order. */
  function NonBlankLines(lines: seq<string>): seq<string>
  {
    if |lines| == 0 then []
    else
      var line := Strip(lines[|lines| - 1]);
      NonBlankLines(lines[..|lines| - 1]) + (if line != "" then [line] else [])
  }

  /** `get_account_list`: on return code 0, the non-empty stripped lines of
      the stripped output; otherwise no accounts (still a success). */
  function AccountList(returncode: int, stdout: string): seq<string>
  {
    if returncode == 0 then NonBlankLines(Split(Strip(stdout), '\n')) else []
  }

  /** Every account is a non-empty stripped line of the output, and every
      non-blank line gives one account. */
  lemma {:induction false} NonBlankLinesSpec(lines: seq<string>)
    ensures |NonBlankLines(lines)| <= |lines|
    ensures forall a :: a in NonBlankLines(lines) ==> a != "" && IsStripped(a) && exists i :: 0 <= i < |lines| && a == Strip(lines[i])
    ensures forall i :: 0 <= i < |lines| && Strip(lines[i]) != "" ==> Strip(lines[i]) in NonBlankLines(lines)
    decreases |lines|
  {
    if |lines| > 0 {
      var init := lines[..|lines| - 1];
      NonBlankLinesSpec(init);
      StripSpec(lines[|lines| - 1]);
      forall a | a in NonBlankLines(lines)
        ensures exists i :: 0 <= i < |lines| && a == Strip(lines[i])
      {
        if a in NonBlankLines(init) {
          var i :| 0 <= i < |init| && a == Strip(init[i]);
          assert init[i] == lines[i];
        }
      }
      forall i | 0 <= i < |lines| && Strip(lines[i]) != ""
        ensures Strip(lines[i]) in NonBlankLines(lines)
      {
        if i < |init| {
          assert init[i] == lines[i];
        }
      }
    }
  }

  /** The loop of `get_account_list`. */
  method ParseAccountList(returncode: int, stdout: string) returns (accounts: seq<string>)
    ensures accounts == AccountList(returncode, stdout)
  {
    if returncode != 0 {
      return [];
    }
    var lines := Split(Strip(stdout), '\n');
    accounts := [];
    var i := 0;
    while i < |lines|
      invariant 0 <= i <= |lines|
      invariant accounts == NonBlankLines(lines[..i])
    {
      var accountName := Strip(lines[i]);
      assert NonBlankLines(lines[..i + 1]) == accounts + (if accountName != "" then [accountName] else []) by {
        assert lines[..i + 1][..i] == lines[..i];
      }
      if accountName != "" {
        accounts := accounts + [accountName];
      }
      i := i + 1;
    }
    assert lines[..i] == lines;
  }

  /** `VMService` over the settings file. */
  class VmService {
    const settings: SettingStore

    constructor (settings: SettingStore)
      ensures this.settings == settings
    {
      this.settings := settings;
    }

    /** `generate_account_name(app_type, region)`: reads the counter and
        changes nothing. */
    method GenerateAccountName(appType: string, region: string) returns (r: Result<string, VmError>)
      ensures NextNumber(settings.vmCounters, CounterKey(appType, region)).None? ==> r == Err(CounterNotANumber)
      ensures NextNumber(settings.vmCounters, CounterKey(appType, region)).Some? ==>
        r == Ok(AccountName(appType, region, NextNumber(settings.vmCounters, CounterKey(appType, region)).value))
    {
      var key := appType + "_" + region;
      var current := Get(settings.vmCounters, key, VInt(0));
      if !IsNumber(current) {
        return Err(CounterNotANumber);
      }
      var nextNum := NumberOf(current) + 1;
      return Ok(appType + "_" + region + "_" + Format03(nextNum));
    }

    /** `increment_account_counter(app_type, region)`: that counter becomes
        its old value plus one (a missing one becomes 1); every other
        counter, and the rest of the settings, stay as they were. */
    method IncrementAccountCounter(appType: string, region: string) returns (r: Result<(), VmError>)
      modifies settings
      ensures var key := CounterKey(appType, region);
        var next := NextNumber(old(settings.vmCounters), key);
        (next.None? ==> r == Err(CounterNotANumber) && settings.vmCounters == old(settings.vmCounters)) &&
        (next.Some? ==> r == Ok(()) && settings.vmCounters == old(settings.vmCounters)[key := VInt(next.value)])
      ensures forall k :: k != CounterKey(appType, region) ==>
        (k in settings.vmCounters <==> k in old(settings.vmCounters)) &&
        (k in settings.vmCounters ==> settings.vmCounters[k] == old(settings.vmCounters)[k])
      ensures settings.regions == old(settings.regions) && settings.devices == old(settings.devices)
      ensures settings.nameCounters == old(settings.nameCounters) && settings.paths == old(settings.paths)
    {
      var key := appType + "_" + region;
      var current := Get(settings.vmCounters, key, VInt(0));
      if !IsNumber(current) {
        return Err(CounterNotANumber);
      }
      settings.vmCounters := settings.vmCounters[key := VInt(NumberOf(current) + 1)];
      return Ok(());
    }
  }
}
