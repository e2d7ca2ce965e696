/** The voice access screen (src/app/access/voice/client.tsx): the handler of
    one recognition result. The transcript is matched against every device
    name in list order; the first device that an on-word would switch on, or
    an off-word would switch off, is toggled, and matching stops there. The
    speech engine itself (start, stop, restart, errors) is an input. */
module VoiceScreen {
  import opened Records
  import opened DeviceStore
  import opened Text

  /** The recognised text: the first alternative of the last result, trimmed and lowercased.
      The engine delivers at least one result with at least one alternative. */
  function Transcript(results: seq<seq<string>>): (t: string)
    requires |results| > 0 && |results[|results| - 1]| > 0
    ensures ToLower(t) == t
    ensures t != [] ==> !IsSpace(t[0]) && !IsSpace(t[|t| - 1])
    ensures |t| <= |results[|results| - 1][0]|
  {
    var trimmed := Trim(results[|results| - 1][0]);
    ToLowerIdempotent(trimmed);
    ToLower(trimmed)
  }

  predicate HasOnWord(t: string) {
    Contains(t, "켜") || Contains(t, "켜기") || Contains(t, "on")
  }

  predicate HasOffWord(t: string) {
    Contains(t, "끄") || Contains(t, "끄기") || Contains(t, "off")
  }

  /** `isOnCommand`: the transcript names the device and holds an on-word. */
  predicate IsOnCommand(t: string, name: string) {
    Contains(t, ToLower(name)) && HasOnWord(t)
  }

  /** `isOffCommand`: the transcript names the device and holds an off-word. */
  predicate IsOffCommand(t: string, name: string) {
    Contains(t, ToLower(name)) && HasOffWord(t)
  }

  /** The transcript makes the handler toggle this device: an on-command for a device that
      is not on, or an off-command for one that is. */
  predicate Acts(t: string, d: Device) {
    (IsOnCommand(t, d.name) && !IsOn(d)) || (IsOffCommand(t, d.name) && IsOn(d))
  }

  /** `k` is the first device in list order the transcript acts on. */
  predicate FirstActing(devices: seq<Device>, t: string, k: int) {
    && 0 <= k < |devices| && Acts(t, devices[k])
    && forall j :: 0 <= j < k ==> !Acts(t, devices[j])
  }

  /** The two-syllable words add nothing: "켜기" holds "켜" and "끄기" holds "끄". */
  lemma {:induction false} CommandWords(t: string)
    ensures HasOnWord(t) <==> Contains(t, "켜") || Contains(t, "on")
    ensures HasOffWord(t) <==> Contains(t, "끄") || Contains(t, "off")
  {
    if Contains(t, "켜기") {
      assert "켜기" == "켜" + "기";
      ContainsShorter(t, "켜", "기");
    }
    if Contains(t, "끄기") {
      assert "끄기" == "끄" + "기";
      ContainsShorter(t, "끄", "기");
    }
  }

  /** The `for` loop over the devices with its early returns: the index of the device to
      toggle, or none. */
  method MatchCommand(devices: seq<Device>, t: string) returns (k: Option<int>)
    ensures k.None? <==> forall j :: 0 <= j < |devices| ==> !Acts(t, devices[j])
    ensures k.Some? ==> FirstActing(devices, t, k.value)
  {
    for i := 0 to |devices|
      invariant forall j :: 0 <= j < i ==> !Acts(t, devices[j])
    {
      var name := ToLower(devices[i].name);
      var isOnCommand := Contains(t, name) && (Contains(t, "켜") || Contains(t, "켜기") || Contains(t, "on"));
      var isOffCommand := Contains(t, name) && (Contains(t, "끄") || Contains(t, "끄기") || Contains(t, "off"));
      if isOnCommand && !(devices[i].isActive == Some(true)) {
        return Some(i);
      }
      if isOffCommand && devices[i].isActive == Some(true) {
        return Some(i);
      }
    }
    return None;
  }

  /** Saying "X on" again while X is on toggles nothing, unless the same words also read as
      an off-command for X. */
  lemma RepeatedOnIgnored(t: string, d: Device)
    requires IsOn(d) && !IsOffCommand(t, d.name)
    ensures !Acts(t, d)
  {
  }

  /** "on" is matched anywhere in the transcript, also inside a name: "monitor off" said of
      a monitor that is off reads as an on-command and switches it on. */
  lemma {:induction false} OnInsideName(d: Device)
    requires d.name == "monitor" && !IsOn(d)
    ensures IsOnCommand("monitor off", d.name) && IsOffCommand("monitor off", d.name)
    ensures Acts("monitor off", d) && Toggle(d).isActive
  {
    MonitorOffWords();
    assert HasOnWord("monitor off");
    assert HasOffWord("monitor off");
  }

  /** The words found in "monitor off". */
  lemma {:induction false} MonitorOffWords()
    ensures ToLower("monitor") == "monitor"
    ensures Contains("monitor off", "monitor") && Contains("monitor off", "on") && Contains("monitor off", "off")
  {
    var t := "monitor off";
    assert t == "monitor" + " off";
    ContainsPrefix("monitor", " off");
    assert OccursAt(t, "on", 1);
    ContainsAt(t, "on");
    assert OccursAt(t, "off", 8);
    ContainsAt(t, "off");
  }

  // The on- and off-words looked for outside the device name, so that the "on" inside
  // "monitor" no longer counts.

  /** `t` with the first occurrence of `p` cut out; `t` itself when `p` does not occur. */
  function WithoutFirst(t: string, p: string): (r: string)
    ensures |r| <= |t|
    ensures StartsWith(t, p) ==> r == t[|p|..]
    ensures !Contains(t, p) ==> r == t
    decreases |t|
  {
    if StartsWith(t, p) then t[|p|..]
    else if t == [] then t
    else [t[0]] + WithoutFirst(t[1..], p)
  }

  /** The on-test with the on-word looked for outside the name. */
  predicate IsOnCommandOutsideName(t: string, name: string) {
    Contains(t, ToLower(name)) && HasOnWord(WithoutFirst(t, ToLower(name)))
  }

  /** The off-test with the off-word looked for outside the name. */
  predicate IsOffCommandOutsideName(t: string, name: string) {
    Contains(t, ToLower(name)) && HasOffWord(WithoutFirst(t, ToLower(name)))
  }

  /** `Acts` with both tests looking outside the name. */
  predicate ActsOutsideName(t: string, d: Device) {
    (IsOnCommandOutsideName(t, d.name) && !IsOn(d)) || (IsOffCommandOutsideName(t, d.name) && IsOn(d))
  }

  /** The words found in " off" and " on". */
  lemma {:induction false} BareCommandWords()
    ensures HasOffWord(" off") && !HasOnWord(" off")
    ensures HasOnWord(" on") && !HasOffWord(" on")
  {
    assert StartsWith(" off"[1..], "off");
    assert StartsWith(" on"[1..], "on");
    if Contains(" off", "켜") { ContainedChars(" off", "켜", 0); }
    if Contains(" off", "켜기") { ContainedChars(" off", "켜기", 0); }
    if Contains(" off", "on") { ContainedChars(" off", "on", 1); }
    if Contains(" on", "끄") { ContainedChars(" on", "끄", 0); }
    if Contains(" on", "끄기") { ContainedChars(" on", "끄기", 0); }
    if Contains(" on", "off") { ContainedChars(" on", "off", 1); }
  }

  /** Looking outside the name, "X off" switches off a device named X that is on and leaves
      one that is off alone, and "X on" does the opposite, whatever the name. */
  lemma {:induction false} CommandOutsideName(d: Device)
    ensures var off := ToLower(d.name) + " off";
      && IsOffCommandOutsideName(off, d.name) && !IsOnCommandOutsideName(off, d.name)
      && (ActsOutsideName(off, d) <==> IsOn(d))
    ensures var on := ToLower(d.name) + " on";
      && IsOnCommandOutsideName(on, d.name) && !IsOffCommandOutsideName(on, d.name)
      && (ActsOutsideName(on, d) <==> !IsOn(d))
  {
    var n := ToLower(d.name);
    BareCommandWords();
    ContainsPrefix(n, " off");
    ContainsPrefix(n, " on");
    assert (n + " off")[|n|..] == " off";
    assert (n + " on")[|n|..] == " on";
    assert StartsWith(n + " off", n) && StartsWith(n + " on", n);
  }

  class Screen {
    const store: Store
    /** The toggle requests sent so far. */
    var log: seq<Activation>

    constructor (store: Store, initialDevices: seq<Device>)
      modifies store`devices
      ensures this.store == store && store.devices == initialDevices && log == []
    {
      this.store := store;
      log := [];
      new;
      store.SetDevices(initialDevices);
    }

    /** `handleDeviceClick`: request the opposite of the device's state. */
    method DeviceClick(device: Device)
      modifies this`log
      ensures log == old(log) + [Toggle(device)]
    {
      log := log + [ToggleDevice(device.id, !IsOn(device))];
    }

    /** `onresult`: at most one toggle per transcript, of the first device it acts on. */
    method OnResult(results: seq<seq<string>>) returns (fired: Option<Activation>)
      requires |results| > 0 && |results[|results| - 1]| > 0
      modifies this`log
      ensures fired.None? <==> forall j :: 0 <= j < |store.devices| ==> !Acts(Transcript(results), store.devices[j])
      ensures fired.Some? ==>
        exists k :: FirstActing(store.devices, Transcript(results), k) && fired.value == Toggle(store.devices[k])
      ensures log == old(log) + if fired.Some? then [fired.value] else []
    {
      var last := results[|results| - 1];
      var transcript := ToLower(Trim(last[0]));
      var k := MatchCommand(store.devices, transcript);
      if k.None? {
        return None;
      }
      var device := store.devices[k.value];
      DeviceClick(device);
      fired := Some(Toggle(device));
    }
  }
}
