// The key listener of the KeyResponseVisualizer page: the key name shown
// for a `keydown`, and the on-screen keys lit between `keydown` and `keyup`.
module KeyVisualizer {
  import opened JsText

  /**
   * The shown name of `e.key`: the space bar, Control, Escape and the four
   * arrows are renamed, then a one-character key is upper-cased.
   */
  function DisplayKey(key: string): string
  {
    var k :=
      if key == " " then "SPACE"
      else if key == "Control" then "CTRL"
      else if key == "Escape" then "ESC"
      else if key == "ArrowUp" then "↑"
      else if key == "ArrowDown" then "↓"
      else if key == "ArrowLeft" then "←"
      else if key == "ArrowRight" then "→"
      else key;
    if |k| == 1 then ToUpper(k) else k
  }

  predicate Renamed(key: string)
  {
    key in {" ", "Control", "Escape", "ArrowUp", "ArrowDown", "ArrowLeft", "ArrowRight"}
  }

  /** Keys that are not renamed: one character is upper-cased, longer names pass unchanged. */
  lemma PlainKeys(key: string)
    requires !Renamed(key)
    ensures |key| == 1 ==> DisplayKey(key) == [UpperChar(key[0])]
    ensures |key| != 1 ==> DisplayKey(key) == key
  {
  }

  /** A shown name is never a lower-case letter, and showing it again changes nothing. */
  lemma DisplayKeyIdempotent(key: string)
    ensures var r := DisplayKey(key); DisplayKey(r) == r
    ensures var r := DisplayKey(key); |r| == 1 ==> !('a' <= r[0] <= 'z')
  {
    var r := DisplayKey(key);
    if |r| == 1 {
      assert r[0] != ' ' by {
        if Renamed(key) {
          assert r == DisplayKey(key);
        } else {
          assert r == ToUpper(key) && key[0] != ' ';
        }
      }
      OneCharNotRenamed(r);
      assert ToUpper(r) == r;
    } else {
      assert !Renamed(r);
    }
  }

  /** The only one-character key that is renamed is the space bar. */
  lemma OneCharNotRenamed(k: string)
    requires |k| == 1 && k[0] != ' '
    ensures !Renamed(k)
  {
    assert k != " ";
  }

  datatype StatusText = WaitingInput | InputDetected

  /** The page's state: the lit on-screen keys and the main card. */
  class KeyPanel {
    /** The `data-code` of every key drawn on the on-screen keyboard. */
    const layout: set<string>
    /** The keys whose element carries the `active` class. */
    var lit: set<string>
    var shownKey: string
    var shownCode: string
    var status: StatusText

    constructor (keys: set<string>)
      ensures layout == keys && lit == {} && status == WaitingInput
      ensures shownKey == "" && shownCode == ""
    {
      layout := keys;
      lit := {};
      shownKey := "";
      shownCode := "";
      status := WaitingInput;
    }

    /** `keydown`: a held-key repeat is ignored; otherwise the key is lit and shown. */
    method KeyDown(key: string, code: string, repeat: bool)
      modifies this`lit, this`shownKey, this`shownCode, this`status
      ensures repeat ==> unchanged(this)
      ensures !repeat ==> lit == old(lit) + (if code in layout then {code} else {})
      ensures !repeat ==> shownKey == DisplayKey(key) && shownCode == code && status == InputDetected
    {
      if repeat {
        return;
      }
      if code in layout {
        lit := lit + {code};
      }
      shownKey := DisplayKey(key);
      shownCode := code;
      status := InputDetected;
    }

    /** `keyup`: only the released key goes dark. */
    method KeyUp(code: string)
      modifies this`lit
      ensures lit == old(lit) - {code}
    {
      lit := lit - {code};
    }

    /** The 200 ms timer after a key press. */
    method ResetCard()
      modifies this`status
      ensures status == WaitingInput
    {
      status := WaitingInput;
    }
  }
}
