// `StatusBadge` of the NovaManager front end: a status text classified by
// an ordered chain of substring tests on its lower-cased form.
module StatusBadge {
  import opened Prelude
  import opened JsText

  /** The badge's colour class and icon, one constructor per branch. */
  datatype Badge =
    | Success   // green, "check_circle"
    | Warning   // yellow, "schedule"
    | Danger    // red, "cancel"
    | Muted     // grey, "do_not_disturb_on"
    | Plain     // grey, "circle": no branch taken

  function Icon(b: Badge): string
  {
    match b
    case Success => "check_circle"
    case Warning => "schedule"
    case Danger => "cancel"
    case Muted => "do_not_disturb_on"
    case Plain => "circle"
  }

  /** `status?.toLowerCase() || ""`. */
  function Normalised(status: Option<string>): string
  {
    if status.Some? then ToLower(status.value) else ""
  }

  predicate SuccessText(s: string)
  {
    Includes(s, "active") || Includes(s, "present") || Includes(s, "paid") || Includes(s, "completed") || Includes(s, "open")
  }

  predicate WarningText(s: string)
  {
    Includes(s, "pending") || Includes(s, "warning") || Includes(s, "late")
  }

  predicate DangerText(s: string)
  {
    Includes(s, "error") || Includes(s, "cancelled") || Includes(s, "absent") || Includes(s, "deleted") || Includes(s, "depleted")
  }

  predicate MutedText(s: string)
  {
    Includes(s, "draft") || Includes(s, "inactive")
  }

  /** The first branch with a word occurring in the normalised status wins. */
  function Classify(status: Option<string>): Badge
  {
    var s := Normalised(status);
    if SuccessText(s) then Success
    else if WarningText(s) then Warning
    else if DangerText(s) then Danger
    else if MutedText(s) then Muted
    else Plain
  }

  /** Classification ignores letter case. */
  lemma CaseInsensitive(s: string)
    ensures Classify(Some(ToUpper(s))) == Classify(Some(s))
    ensures Classify(Some(ToLower(s))) == Classify(Some(s))
  {
    LowerOfUpper(s);
    ToLowerIdempotent(s);
  }

  /** A missing or empty status takes no branch. */
  lemma MissingIsPlain()
    ensures Classify(None) == Plain && Classify(Some("")) == Plain
  {
    assert Normalised(Some("")) == "";
  }

  /**
   * Any status containing "inactive" contains "active" and is shown as
   * success: the "inactive" test of the grey branch is never reached.
   */
  lemma InactiveIsSuccess(status: string)
    requires Includes(ToLower(status), "inactive")
    ensures Classify(Some(status)) == Success
  {
    var s := ToLower(status);
    var i := IncludesWitness(s, "inactive");
    assert s[i + 2..i + 8] == s[i..i + 8][2..];
    assert "inactive"[2..] == "active";
    IncludesAt(s, "active", i + 2);
  }

  /** Every character of an included word occurs in the text. */
  lemma IncludedChars(s: string, w: string, c: char)
    requires Includes(s, w) && c in w
    ensures c in s
  {
    var i := IncludesWitness(s, w);
    var j :| 0 <= j < |w| && w[j] == c;
    assert s[i..i + |w|][j] == s[i + j];
  }

  /** A word holding a character the text lacks cannot occur in it. */
  lemma MissingChar(s: string, w: string, c: char)
    requires c in w && c !in s
    ensures !Includes(s, w)
  {
    if Includes(s, w) {
      IncludedChars(s, w, c);
      assert false;
    }
  }

  /**
   * A status with the letters of "depleted" and none of a, c, o, n, r or w
   * fails the green and yellow tests and passes the red one.
   */
  lemma DepletedWording(status: string)
    requires Includes(ToLower(status), "depleted")
    requires var s := ToLower(status); 'a' !in s && 'c' !in s && 'o' !in s && 'r' !in s && 'n' !in s && 'w' !in s
    ensures Classify(Some(status)) == Danger
  {
    var s := ToLower(status);
    MissingChar(s, "active", 'a');
    MissingChar(s, "present", 'r');
    MissingChar(s, "paid", 'a');
    MissingChar(s, "completed", 'c');
    MissingChar(s, "open", 'o');
    MissingChar(s, "pending", 'n');
    MissingChar(s, "warning", 'w');
    MissingChar(s, "late", 'a');
  }

  /** A status without a, d, l, p, r or w matches no word of any branch. */
  lemma UnmatchedWording(status: string)
    requires var s := ToLower(status); 'a' !in s && 'd' !in s && 'l' !in s && 'p' !in s && 'r' !in s && 'w' !in s
    ensures Classify(Some(status)) == Plain
  {
    var s := ToLower(status);
    MissingChar(s, "active", 'a');
    MissingChar(s, "present", 'p');
    MissingChar(s, "paid", 'p');
    MissingChar(s, "completed", 'p');
    MissingChar(s, "open", 'p');
    MissingChar(s, "pending", 'p');
    MissingChar(s, "warning", 'w');
    MissingChar(s, "late", 'l');
    MissingChar(s, "error", 'r');
    MissingChar(s, "cancelled", 'a');
    MissingChar(s, "absent", 'a');
    MissingChar(s, "deleted", 'd');
    MissingChar(s, "depleted", 'd');
    MissingChar(s, "draft", 'd');
    MissingChar(s, "inactive", 'a');
  }

  /** A status without b, c, e, l, p, r or w matches no word of any branch. */
  lemma UnmatchedWordingToo(status: string)
    requires var s := ToLower(status); 'b' !in s && 'c' !in s && 'e' !in s && 'l' !in s && 'p' !in s && 'r' !in s && 'w' !in s
    ensures Classify(Some(status)) == Plain
  {
    var s := ToLower(status);
    MissingChar(s, "active", 'c');
    MissingChar(s, "present", 'p');
    MissingChar(s, "paid", 'p');
    MissingChar(s, "completed", 'c');
    MissingChar(s, "open", 'p');
    MissingChar(s, "pending", 'p');
    MissingChar(s, "warning", 'w');
    MissingChar(s, "late", 'l');
    MissingChar(s, "error", 'e');
    MissingChar(s, "cancelled", 'c');
    MissingChar(s, "absent", 'b');
    MissingChar(s, "deleted", 'e');
    MissingChar(s, "depleted", 'e');
    MissingChar(s, "draft", 'r');
    MissingChar(s, "inactive", 'c');
  }

  /** "DEPLETED", the stock status of an exhausted item, is shown in red. */
  lemma DepletedIsDanger()
    ensures Classify(Some("DEPLETED")) == Danger
  {
    var s := ToLower("DEPLETED");
    assert s == "depleted";
    IncludesAt(s, "depleted", 0);
    DepletedWording("DEPLETED");
  }

  /** The stock table's "En Stock" label takes the plain grey badge. */
  lemma InStockLabelIsPlain()
    ensures Classify(Some("En Stock")) == Plain
  {
    assert ToLower("En Stock") == "en stock";
    UnmatchedWording("En Stock");
  }

  /** The stock table's "Agotado" (sold out) label takes it too. */
  lemma SoldOutLabelIsPlain()
    ensures Classify(Some("Agotado")) == Plain
  {
    assert ToLower("Agotado") == "agotado";
    UnmatchedWordingToo("Agotado");
  }
}
