/** The settings screen's shared view-model: one dynamic-colour flag, seeded
    from the platform's capability and flipped by the user. */
module SettingFeature {

  /** `Build.VERSION_CODES.S`, the first API level with dynamic colour. */
  const VersionCodesS: int := 31

  /** `isSupportedDynamicColor`, with the running SDK level passed in. */
  function IsSupportedDynamicColor(sdkInt: int): (r: bool)
    ensures r <==> sdkInt >= 31
  {
    sdkInt >= VersionCodesS
  }

  /** What the screen observes. */
  datatype SharedSettingUiModel = SharedSettingUiModel(isDynamicColorEnabled: bool)

  /** The flag after `n` toggles starting from `initial`. */
  function Toggled(initial: bool, n: nat): bool
  {
    if n == 0 then initial else !Toggled(initial, n - 1)
  }

  /** After n toggles the flag is the initial value exclusive-or "n is odd". */
  lemma {:induction false} ToggledParity(initial: bool, n: nat)
    ensures Toggled(initial, n) == (initial != (n % 2 == 1))
  {
    if n > 0 {
      ToggledParity(initial, n - 1);
    }
  }

  /** Toggling twice restores the flag. */
  lemma TogglingTwiceRestores(initial: bool, n: nat)
    ensures Toggled(initial, n + 2) == Toggled(initial, n)
  {
    ToggledCompose(initial, n, 2);
  }

  /** Toggle runs compose by adding their lengths. */
  lemma {:induction false} ToggledCompose(initial: bool, m: nat, n: nat)
    ensures Toggled(Toggled(initial, m), n) == Toggled(initial, m + n)
  {
    if n > 0 {
      ToggledCompose(initial, m, n - 1);
    }
  }

  class SharedSettingViewModel {
    var isDynamicColorEnabled: bool
    /** The published UI model, recomposed from the flag after every change. */
    var uiModel: SharedSettingUiModel
    /** The flag as the constructor set it, and how often it was toggled since. */
    ghost var initialFlag: bool
    ghost var toggleCount: nat

    /** The UI model reflects the flag, and the flag is the initial value
        toggled `toggleCount` times. */
    ghost predicate Valid()
      reads this
    {
      uiModel.isDynamicColorEnabled == isDynamicColorEnabled
      && isDynamicColorEnabled == Toggled(initialFlag, toggleCount)
    }

    /** `init`, with the platform's SDK level passed in. */
    constructor (sdkInt: int)
      ensures Valid()
      ensures isDynamicColorEnabled == IsSupportedDynamicColor(sdkInt)
      ensures isDynamicColorEnabled <==> sdkInt >= 31
      ensures initialFlag == isDynamicColorEnabled && toggleCount == 0
    {
      isDynamicColorEnabled := IsSupportedDynamicColor(sdkInt);
      uiModel := SharedSettingUiModel(isDynamicColorEnabled);
      initialFlag := isDynamicColorEnabled;
      toggleCount := 0;
    }

    /** `onDynamicColorToggle`: flip the flag in place; the UI model follows. */
    method OnDynamicColorToggle()
      requires Valid()
      modifies this
      ensures Valid()
      ensures isDynamicColorEnabled == !old(isDynamicColorEnabled)
      ensures uiModel.isDynamicColorEnabled == isDynamicColorEnabled
      ensures initialFlag == old(initialFlag) && toggleCount == old(toggleCount) + 1
      ensures isDynamicColorEnabled == (initialFlag != (toggleCount % 2 == 1))
    {
      isDynamicColorEnabled := !isDynamicColorEnabled;
      uiModel := SharedSettingUiModel(isDynamicColorEnabled);
      toggleCount := toggleCount + 1;
      ToggledParity(initialFlag, toggleCount);
    }

    /** Reading `uiModel`: it always shows the current flag. */
    method CurrentUiModel() returns (m: SharedSettingUiModel)
      requires Valid()
      ensures m.isDynamicColorEnabled == isDynamicColorEnabled
      ensures m.isDynamicColorEnabled == (initialFlag != (toggleCount % 2 == 1))
    {
      m := uiModel;
      ToggledParity(initialFlag, toggleCount);
    }
  }

  /** A client: on a device below API level 31 the flag starts off, one toggle
      turns it on, a second turns it off again. */
  method ToggleScenario() returns (initially: SharedSettingUiModel, once: SharedSettingUiModel, twice: SharedSettingUiModel)
    ensures !initially.isDynamicColorEnabled
    ensures once.isDynamicColorEnabled
    ensures twice == initially
  {
    var vm := new SharedSettingViewModel(30);
    initially := vm.CurrentUiModel();
    vm.OnDynamicColorToggle();
    once := vm.CurrentUiModel();
    vm.OnDynamicColorToggle();
    twice := vm.CurrentUiModel();
  }
}
