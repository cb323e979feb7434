/**
 * The bookkeeping of the device-selection dialog: one device choice per
 * microphone, the combo boxes that show them, the saved configuration, and the
 * list the dialog finally hands to the visualizer. Also the frame-rate label of
 * the settings dialog.
 *
 * A combo box is modelled by its item data (the default device, then every input
 * device) and its current index; widgets, layouts and signals are not modelled.
 */
module Dialogs {
  import opened Wrappers

  /** The channel counts the dialog's spin box allows. */
  const MinChannels: nat := 1
  const MaxChannels: nat := 8

  /** A device combo box: the device index behind each item (None for the default device), and the item shown. */
  datatype Combo = Combo(items: seq<Option<int>>, current: int)

  /** `combo.itemData(j)`: the data of item `j`, None for an index outside the box. */
  function ItemData(c: Combo, j: int): (r: Option<int>)
    ensures 0 <= j < |c.items| ==> r == c.items[j]
    ensures !(0 <= j < |c.items|) ==> r.None?
  {
    if 0 <= j < |c.items| then c.items[j] else None
  }

  /** The device the combo box currently shows. */
  function Shown(c: Combo): Option<int>
  {
    ItemData(c, c.current)
  }

  /** The items of every device combo box: the default device first, then the input devices. */
  function DeviceItems(inputDevices: seq<int>): (r: seq<Option<int>>)
    ensures |r| == |inputDevices| + 1 && r[0].None?
    ensures forall k :: 0 <= k < |inputDevices| ==> r[k + 1] == Some(inputDevices[k])
  {
    [None] + seq(|inputDevices|, k requires 0 <= k < |inputDevices| => Some(inputDevices[k]))
  }

  /** `[None] * n` */
  function Nones(n: nat): (r: seq<Option<int>>)
    ensures |r| == n && forall k :: 0 <= k < n ==> r[k].None?
  {
    seq(n, _ => None)
  }

  /** The first item of `c` whose data is `device`. */
  method FindItem(c: Combo, device: int) returns (j: Option<nat>)
    ensures j.Some? ==>
      && j.value < |c.items| && c.items[j.value] == Some(device)
      && forall k :: 0 <= k < j.value ==> c.items[k] != Some(device)
    ensures j.None? ==> forall k :: 0 <= k < |c.items| ==> c.items[k] != Some(device)
  {
    for k := 0 to |c.items|
      invariant forall m :: 0 <= m < k ==> c.items[m] != Some(device)
    {
      if ItemData(c, k) == Some(device) {
        return Some(k);
      }
    }
    return None;
  }

  /** `select_input_devices_gui`'s padding: append None until the list has `n` entries. */
  method PadWithNone(devices: seq<Option<int>>, n: nat) returns (r: seq<Option<int>>)
    ensures |r| == Max(|devices|, n)
    ensures r[..|devices|] == devices
    ensures forall k :: |devices| <= k < |r| ==> r[k].None?
  {
    r := devices;
    while |r| < n
      invariant |devices| <= |r| <= Max(|devices|, n)
      invariant r[..|devices|] == devices
      invariant forall k :: |devices| <= k < |r| ==> r[k].None?
      decreases n - |r|
    {
      r := r + [None];
    }
  }

  /** The frame rate the settings dialog shows for a frame interval of `ms` milliseconds (None: "∞"). */
  function FpsLabel(ms: int): (r: Option<int>)
    ensures ms <= 0 <==> r.None?
    ensures ms > 0 ==> r.value >= 0 && r.value * ms <= 1000 < (r.value + 1) * ms
  {
    if ms > 0 then Some(1000 / ms) else None
  }

  /** Over the slider's range of 5 to 100 ms the label shows 10 to 200 frames per second. */
  lemma FpsLabelWithinSliderRange(ms: int)
    requires 5 <= ms <= 100
    ensures 10 <= FpsLabel(ms).value <= 200
  {
    FpsLabelMonotone(ms, 100);
    FpsLabelMonotone(5, ms);
  }

  /** A longer frame interval never shows a higher frame rate. */
  lemma FpsLabelMonotone(ms1: int, ms2: int)
    requires 0 < ms1 <= ms2
    ensures FpsLabel(ms2).value <= FpsLabel(ms1).value
  {
    var f1, f2 := FpsLabel(ms1).value, FpsLabel(ms2).value;
    assert f2 >= 0 && f2 * ms2 <= 1000 < (f1 + 1) * ms1;
    MulMonotone(f2, ms1, ms2);
    MulCancel(f2, f1 + 1, ms1);
  }

  lemma MulMonotone(a: int, b: int, c: int)
    requires a >= 0 && b <= c
    ensures a * b <= a * c
  {
  }

  lemma MulCancel(a: int, b: int, c: int)
    requires c > 0 && a * c < b * c
    ensures a < b
  {
  }

  class DeviceSelectionDialog {
    var numChannels: nat
    /** `selected_devices`: the device chosen for each microphone. */
    var selected: seq<Option<int>>
    /** One combo box per microphone row. */
    var combos: seq<Combo>
    /** The input devices every combo box offers after the default device. */
    var inputDevices: seq<int>

    /** Every combo box offers the default device and the input devices, and shows one of them. */
    predicate CombosWellFormed()
      reads this`combos, this`inputDevices
    {
      forall i :: 0 <= i < |combos| ==>
        combos[i].items == DeviceItems(inputDevices) && 0 <= combos[i].current < |combos[i].items|
    }

    /** One combo box row per microphone. */
    predicate Valid()
      reads this`combos, this`numChannels, this`inputDevices
    {
      |combos| == numChannels && CombosWellFormed()
    }

    /**
     * The dialog as it opens: `n` unset microphones and one default-device row each; then a
     * saved channel count between 1 and 8 replaces `n` (rows follow), and the saved
     * configuration is loaded as `LoadSavedConfig` says.
     */
    constructor(n: nat, inputDevices: seq<int>, savedDevices: Option<seq<Option<int>>>, savedCount: Option<int>)
      ensures Valid() && this.inputDevices == inputDevices
      ensures numChannels == if savedCount.Some? && MinChannels <= savedCount.value <= MaxChannels then savedCount.value else n
      ensures savedDevices.None? ==> selected == Nones(numChannels)
      ensures savedDevices.Some? ==>
        var m := Min(|savedDevices.value|, numChannels);
        && |selected| == numChannels && (forall k :: 0 <= k < m ==> selected[k] == savedDevices.value[k])
        && (forall k :: m <= k < numChannels ==> selected[k].None?)
        && forall i :: 0 <= i < numChannels ==>
             combos[i] == if i < m then SavedShown(Combo(DeviceItems(inputDevices), 0), savedDevices.value[i])
                          else Combo(DeviceItems(inputDevices), 0)
      ensures savedDevices.None? ==> forall i :: 0 <= i < numChannels ==> combos[i] == Combo(DeviceItems(inputDevices), 0)
    {
      numChannels := n;
      selected := Nones(n);
      this.inputDevices := inputDevices;
      combos := [];
      new;
      OpenRows(savedCount);
      LoadSavedConfig(savedDevices, savedCount);
    }

    /**
     * The rows as the dialog opens, before the saved devices are loaded: one default row per
     * microphone, and then, for a saved count between 1 and 8, that many microphones and rows.
     */
    method OpenRows(savedCount: Option<int>)
      requires combos == [] && forall k :: 0 <= k < |selected| ==> selected[k].None?
      modifies this`numChannels, this`combos
      ensures numChannels == if savedCount.Some? && MinChannels <= savedCount.value <= MaxChannels
                             then savedCount.value else old(numChannels)
      ensures Valid() && forall i :: 0 <= i < numChannels ==> combos[i] == Combo(DeviceItems(inputDevices), 0)
    {
      UpdateDeviceSelections();
      forall i | 0 <= i < numChannels ensures combos[i] == Combo(DeviceItems(inputDevices), 0) {
        UnsetRowShowsDefault(i);
      }
      if savedCount.Some? && MinChannels <= savedCount.value <= MaxChannels {
        numChannels := savedCount.value;
        ghost var before := combos;
        UpdateDeviceSelections();
        forall i | |before| <= i < numChannels ensures combos[i] == Combo(DeviceItems(inputDevices), 0) {
          UnsetRowShowsDefault(i);
        }
      }
    }

    /** A row added for a microphone without a device shows the default. */
    lemma UnsetRowShowsDefault(index: nat)
      requires index < |selected| ==> selected[index].None?
      ensures NewCombo(index) == Combo(DeviceItems(inputDevices), 0)
    {
    }

    /** The combo box a new row `index` starts with: its microphone's device when it is offered, else the default. */
    function NewCombo(index: nat): (r: Combo)
      reads this`inputDevices, this`selected
      ensures r.items == DeviceItems(inputDevices) && 0 <= r.current < |r.items|
    {
      var items := DeviceItems(inputDevices);
      var want := if index < |selected| then selected[index] else None;
      if want.Some? && exists k :: 0 <= k < |items| && items[k] == want then
        Combo(items, FirstIndexOf(items, want.value))
      else Combo(items, 0)
    }

    /** A new row shows its microphone's device when the row offers it, and the default otherwise. */
    lemma NewComboShowsSelected(index: nat)
      ensures var r := NewCombo(index);
        && (index < |selected| && selected[index] in r.items ==> Shown(r) == selected[index])
        && (!(index < |selected| && selected[index] in r.items) ==> r.current == 0)
    {
    }

    /** `add_device_selection(index)`: append a row, showing the microphone's device when the box offers it. */
    method AddDeviceSelection(index: nat)
      requires CombosWellFormed()
      modifies this`combos
      ensures CombosWellFormed()
      ensures combos == old(combos) + [NewCombo(index)]
    {
      var items := DeviceItems(inputDevices);
      var combo := Combo(items, 0);
      if index < |selected| && selected[index].Some? {
        var j := FindItem(combo, selected[index].value);
        if j.Some? {
          FirstIndexOfIsFirst(items, selected[index].value, j.value);
          combo := combo.(current := j.value);
        }
      }
      combos := combos + [combo];
    }

    /** `remove_device_selection(index)`: drop row `index` when there is one. */
    method RemoveDeviceSelection(index: nat)
      modifies this`combos
      ensures index < |old(combos)| ==> combos == old(combos)[..index] + old(combos)[index + 1..]
      ensures index >= |old(combos)| ==> combos == old(combos)
    {
      if index < |combos| {
        combos := combos[..index] + combos[index + 1..];
      }
    }

    /**
     * `update_device_selections()`: add rows at the end, or remove them from the highest index
     * down, until there is one per microphone. Rows that stay are untouched.
     */
    method UpdateDeviceSelections()
      requires CombosWellFormed()
      modifies this`combos
      ensures Valid()
      ensures forall i :: 0 <= i < Min(|old(combos)|, numChannels) ==> combos[i] == old(combos)[i]
      ensures forall i :: |old(combos)| <= i < numChannels ==> combos[i] == NewCombo(i)
    {
      if numChannels > |combos| {
        AddRows();
      } else if numChannels < |combos| {
        RemoveRows();
      }
    }

    /** The growing half of `update_device_selections()`: one new row per missing microphone, in order. */
    method AddRows()
      requires CombosWellFormed() && |combos| < numChannels
      modifies this`combos
      ensures Valid()
      ensures forall i :: 0 <= i < |old(combos)| ==> combos[i] == old(combos)[i]
      ensures forall i :: |old(combos)| <= i < numChannels ==> combos[i] == NewCombo(i)
    {
      ghost var start := combos;
      ghost var added := seq(numChannels - |start|, k requires 0 <= k reads this => NewCombo(|start| + k));
      for i := |combos| to numChannels
        invariant CombosWellFormed()
        invariant combos == start + added[..i - |start|]
      {
        AddDeviceSelection(i);
        assert added[..i + 1 - |start|] == added[..i - |start|] + [added[i - |start|]];
      }
      assert added[..numChannels - |start|] == added;
    }

    /** The shrinking half of `update_device_selections()`: rows are removed from the highest index down. */
    method RemoveRows()
      requires CombosWellFormed() && numChannels < |combos|
      modifies this`combos
      ensures Valid()
      ensures combos == old(combos)[..numChannels]
    {
      var i := |combos| - 1;
      while i >= numChannels
        invariant numChannels - 1 <= i < |old(combos)|
        invariant combos == old(combos)[..i + 1]
        invariant CombosWellFormed()
      {
        RemoveDeviceSelection(i);
        i := i - 1;
      }
    }

    /**
     * `on_channels_changed(new_count)`: more microphones add unset entries at the end, fewer
     * keep the first `new_count`; then the rows follow.
     */
    method OnChannelsChanged(newCount: nat)
      requires CombosWellFormed()
      requires MinChannels <= newCount <= MaxChannels
      modifies this`numChannels, this`selected, this`combos
      ensures Valid() && numChannels == newCount
      ensures newCount > old(numChannels) ==> selected == old(selected) + Nones(newCount - old(numChannels))
      ensures newCount < old(numChannels) ==> selected == old(selected)[..Min(newCount, |old(selected)|)]
      ensures newCount == old(numChannels) ==> selected == old(selected)
      ensures forall i :: 0 <= i < Min(|old(combos)|, newCount) ==> combos[i] == old(combos)[i]
      ensures forall i :: |old(combos)| <= i < newCount ==> combos[i] == NewCombo(i)
    {
      var oldCount := numChannels;
      numChannels := newCount;
      if newCount > oldCount {
        selected := selected + Nones(newCount - oldCount);
      } else if newCount < oldCount {
        selected := selected[..Min(newCount, |selected|)];
      }
      UpdateDeviceSelections();
    }

    /**
     * `on_device_changed(mic_index, combo_index)`: for an existing row, record the device of
     * the chosen item for that microphone, first padding the list with None when it is too
     * short. No other entry changes.
     */
    method OnDeviceChanged(mic: nat, comboIndex: int)
      modifies this`selected
      ensures mic >= |combos| ==> selected == old(selected)
      ensures mic < |combos| ==>
        && |selected| == Max(|old(selected)|, mic + 1)
        && selected[mic] == ItemData(combos[mic], comboIndex)
        && (forall k :: 0 <= k < |old(selected)| && k != mic ==> selected[k] == old(selected)[k])
        && (forall k :: |old(selected)| <= k < |selected| && k != mic ==> selected[k].None?)
    {
      if mic < |combos| {
        var device := ItemData(combos[mic], comboIndex);
        if mic < |selected| {
          selected := selected[mic := device];
        } else {
          while |selected| <= mic
            invariant |old(selected)| <= |selected| <= mic + 1
            invariant selected[..|old(selected)|] == old(selected)
            invariant forall k :: |old(selected)| <= k < |selected| ==> selected[k].None?
            decreases mic + 1 - |selected|
          {
            selected := selected + [None];
          }
          selected := selected[mic := device];
        }
      }
    }

    /** The user picks item `j` of row `mic`: the box shows it and the handler records it. */
    method ChooseDevice(mic: nat, j: nat)
      requires CombosWellFormed() && mic < |combos| && j < |combos[mic].items|
      modifies this`combos, this`selected
      ensures CombosWellFormed() && |combos| == |old(combos)|
      ensures combos == old(combos)[mic := old(combos)[mic].(current := j)]
      ensures mic < |selected| && selected[mic] == Shown(combos[mic])
    {
      combos := combos[mic := combos[mic].(current := j)];
      OnDeviceChanged(mic, j);
    }

    /**
     * `clear_saved_config()`: when there was a saved configuration to delete, every row goes
     * back to the default device and every microphone is unset; otherwise nothing changes.
     */
    method ClearSavedConfig(configExisted: bool)
      requires CombosWellFormed()
      modifies this`selected, this`combos
      ensures CombosWellFormed() && |combos| == |old(combos)|
      ensures configExisted ==> selected == Nones(numChannels)
      ensures configExisted ==>
        forall i :: 0 <= i < |combos| ==> combos[i] == old(combos)[i].(current := 0) && Shown(combos[i]).None?
      ensures !configExisted ==> selected == old(selected) && combos == old(combos)
    {
      if configExisted {
        for i := 0 to |combos|
          modifies this`combos
          invariant |combos| == |old(combos)| && CombosWellFormed()
          invariant forall k :: 0 <= k < i ==> combos[k] == old(combos)[k].(current := 0)
          invariant forall k :: i <= k < |combos| ==> combos[k] == old(combos)[k]
        {
          combos := combos[i := combos[i].(current := 0)];
        }
        selected := Nones(numChannels);
      }
    }

    /**
     * `get_selected_devices()`: take every row's shown device into the list, then return the
     * first `num_channels` entries. With a row per microphone the result is exactly the
     * devices the rows show.
     */
    method GetSelectedDevices() returns (r: seq<Option<int>>)
      modifies this`selected
      ensures var j := Min(numChannels, |combos|);
        && |selected| == Max(|old(selected)|, j)
        && (forall k :: 0 <= k < j ==> selected[k] == Shown(combos[k]))
        && (forall k :: j <= k < |selected| ==> selected[k] == old(selected)[k])
      ensures |r| == Min(numChannels, |selected|) && r == selected[..|r|]
      ensures |combos| >= numChannels ==>
        |r| == numChannels && forall i :: 0 <= i < numChannels ==> r[i] == Shown(combos[i])
    {
      for i := 0 to numChannels
        invariant |selected| == Max(|old(selected)|, Min(i, |combos|))
        invariant forall k :: 0 <= k < Min(i, |combos|) ==> selected[k] == Shown(combos[k])
        invariant forall k :: Min(i, |combos|) <= k < |selected| ==> selected[k] == old(selected)[k]
      {
        if i < |combos| {
          var device := Shown(combos[i]);
          if i < |selected| {
            selected := selected[i := device];
          } else {
            selected := selected + [device];
          }
        }
      }
      r := selected[..Min(numChannels, |selected|)];
    }

    /**
     * Accepting the dialog: the selected devices, padded with None to exactly one per
     * microphone, each the device its row shows.
     */
    method Accept() returns (n: nat, devices: seq<Option<int>>)
      requires Valid()
      modifies this`selected
      ensures n == numChannels && |devices| == n
      ensures forall i :: 0 <= i < n ==> devices[i] == Shown(combos[i])
    {
      n := numChannels;
      var chosen := GetSelectedDevices();
      devices := PadWithNone(chosen, n);
    }

    /**
     * `load_saved_config()`: a saved channel count between 1 and 8 replaces the count and
     * unsets every microphone; then each saved device for a microphone that exists is recorded,
     * and its row, when there is one, shows it as `SavedShown` says. Saved devices beyond the
     * channel count are ignored.
     */
    method LoadSavedConfig(savedDevices: Option<seq<Option<int>>>, savedCount: Option<int>)
      requires CombosWellFormed()
      modifies this`numChannels, this`selected, this`combos
      ensures CombosWellFormed() && |combos| == |old(combos)|
      ensures savedCount.Some? && MinChannels <= savedCount.value <= MaxChannels ==>
        numChannels == savedCount.value && (savedDevices.None? ==> selected == Nones(numChannels))
      ensures !(savedCount.Some? && MinChannels <= savedCount.value <= MaxChannels) ==>
        numChannels == old(numChannels) && (savedDevices.None? ==> selected == old(selected))
      ensures savedDevices.Some? ==>
        var m := Min(|savedDevices.value|, numChannels);
        && |selected| >= m && (forall k :: 0 <= k < m ==> selected[k] == savedDevices.value[k])
        && (savedCount.Some? && MinChannels <= savedCount.value <= MaxChannels ==>
              |selected| == numChannels && forall k :: m <= k < numChannels ==> selected[k].None?)
        && (!(savedCount.Some? && MinChannels <= savedCount.value <= MaxChannels) ==>
              |selected| == Max(|old(selected)|, m) && forall k :: m <= k < |selected| ==> selected[k] == old(selected)[k])
        && forall i :: 0 <= i < |combos| ==>
             combos[i] == if i < m then SavedShown(old(combos)[i], savedDevices.value[i]) else old(combos)[i]
      ensures savedDevices.None? ==> combos == old(combos)
    {
      if savedCount.Some? && MinChannels <= savedCount.value <= MaxChannels {
        numChannels := savedCount.value;
        selected := Nones(numChannels);
      }
      if savedDevices.Some? {
        LoadSavedDevices(savedDevices.value);
      }
    }

    /** The device half of `load_saved_config()`: each saved device for an existing microphone is recorded and shown. */
    method LoadSavedDevices(saved: seq<Option<int>>)
      requires CombosWellFormed()
      modifies this`selected, this`combos
      ensures CombosWellFormed() && |combos| == |old(combos)|
      ensures var m := Min(|saved|, numChannels);
        && |selected| == Max(|old(selected)|, m) && (forall k :: 0 <= k < m ==> selected[k] == saved[k])
        && (forall k :: m <= k < |selected| ==> selected[k] == old(selected)[k])
        && forall i :: 0 <= i < |combos| ==>
             combos[i] == if i < m then SavedShown(old(combos)[i], saved[i]) else old(combos)[i]
    {
      // Saved devices at or past `num_channels` are skipped, so the loop stops there.
      for i := 0 to Min(|saved|, numChannels)
        invariant CombosWellFormed() && |combos| == |old(combos)|
        invariant |selected| == Max(|old(selected)|, i)
        invariant forall k :: 0 <= k < i ==> selected[k] == saved[k]
        invariant forall k :: i <= k < |selected| ==> selected[k] == old(selected)[k]
        invariant forall k :: 0 <= k < |combos| ==>
          combos[k] == if k < i then SavedShown(old(combos)[k], saved[k]) else old(combos)[k]
      {
        RecordSaved(i, saved[i]);
      }
    }

    /** One step of `load_saved_config()`: microphone `i` gets device `d`, and its row, when there is one, shows it. */
    method RecordSaved(i: nat, d: Option<int>)
      requires CombosWellFormed() && i < numChannels && i <= |selected|
      modifies this`selected, this`combos
      ensures CombosWellFormed()
      ensures selected == if i < |old(selected)| then old(selected)[i := d] else old(selected) + [d]
      ensures combos == if i < |old(combos)| then old(combos)[i := SavedShown(old(combos)[i], d)] else old(combos)
    {
      if i < |selected| {
        selected := selected[i := d];
      } else {
        selected := selected + [d];
      }
      if i < |combos| {
        var c := ShowSavedDevice(combos[i], d);
        combos := combos[i := c];
      }
    }
  }

  /**
   * The row a saved device leaves behind: the default device for None, the first item with
   * the device when the row offers it, and otherwise the row as it was.
   */
  function SavedShown(c: Combo, d: Option<int>): (r: Combo)
    ensures r.items == c.items
    ensures d.None? ==> r.current == 0
    ensures d.Some? && d in c.items ==> Shown(r) == d
    ensures d.Some? && d !in c.items ==> r == c
    ensures 0 <= c.current < |c.items| && |c.items| > 0 ==> 0 <= r.current < |r.items|
  {
    if d.None? then c.(current := 0)
    else if d in c.items then c.(current := FirstIndexOf(c.items, d.value))
    else c
  }

  /** One saved device applied to its row, searching the row's items from the first. */
  method ShowSavedDevice(c: Combo, d: Option<int>) returns (r: Combo)
    ensures r == SavedShown(c, d)
  {
    r := c;
    if d.None? {
      r := c.(current := 0);
    } else {
      var j := FindItem(c, d.value);
      if j.Some? {
        FirstIndexOfIsFirst(c.items, d.value, j.value);
        r := c.(current := j.value);
      }
    }
  }

  /** The position of the first occurrence of `x` in `s`. */
  function FirstIndexOf(s: seq<Option<int>>, x: int): (k: nat)
    requires exists k :: 0 <= k < |s| && s[k] == Some(x)
    ensures k < |s| && s[k] == Some(x) && forall m :: 0 <= m < k ==> s[m] != Some(x)
  {
    if s[0] == Some(x) then 0
    else
      assert exists k :: 0 <= k < |s[1..]| && s[1..][k] == Some(x) by {
        var k :| 0 <= k < |s| && s[k] == Some(x);
        assert s[1..][k - 1] == s[k];
      }
      var k := FirstIndexOf(s[1..], x);
      assert forall m :: 1 <= m <= k ==> s[m] == s[1..][m - 1];
      k + 1
  }

  /** An index found by a left-to-right search is the first occurrence. */
  lemma FirstIndexOfIsFirst(s: seq<Option<int>>, x: int, j: nat)
    requires j < |s| && s[j] == Some(x) && forall m :: 0 <= m < j ==> s[m] != Some(x)
    ensures FirstIndexOf(s, x) == j
  {
  }
}
