/** The feature base class of src/sdk/Feature.cs: a name, a key binding
    (Unity's KeyCode, as its numeric value) and an on/off flag. */
module FeatureSdk {
  class Feature {
    const name: string
    const keybind: int
    var isEnabled: bool

    /** A feature starts disabled. */
    constructor (name: string, keybind: int)
      ensures this.name == name && this.keybind == keybind
      ensures !isEnabled
    {
      this.name := name;
      this.keybind := keybind;
      isEnabled := false;
    }

    /** Toggle flips the flag and touches nothing else; two toggles
        therefore give the flag back. */
    method Toggle()
      modifies this
      ensures isEnabled == !old(isEnabled)
    {
      isEnabled := !isEnabled;
    }
  }

  /** Two toggles in a row restore the original state. */
  method ToggleTwice(f: Feature)
    modifies f
    ensures f.isEnabled == old(f.isEnabled)
  {
    f.Toggle();
    f.Toggle();
  }
}
