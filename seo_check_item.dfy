/**
 * One row of the SEO/GEO check list (components/url-audit/SEOCheckItem.tsx):
 * the status icon and the severity pill with its tolerant label lookup.
 */
module SEOCheckItem {
  import opened Wrappers
  import opened Text

  datatype Status = Passed | Failed

  /** A severity pill's colours and label. */
  datatype SeverityPill = SeverityPill(bgColor: string, textColor: string, labelText: string)

  const HighPill := SeverityPill("bg-red-100", "text-red-700", "HIGH")
  const MediumPill := SeverityPill("bg-yellow-100", "text-yellow-700", "Medium")
  const LowPill := SeverityPill("bg-green-100", "text-green-700", "Low")

  /** The icon colour: chosen by the status alone. */
  function StatusIconColor(status: Status): (color: string)
    ensures color == "text-green-600" <==> status == Passed
    ensures color == "text-red-600" <==> status == Failed
  {
    match status
    case Passed => "text-green-600"
    case Failed => "text-red-600"
  }

  /** `severityConfigMap[key]` for the map's own three keys. */
  function ExactPill(key: string): (pill: Option<SeverityPill>)
    ensures pill.Some? <==> key in {"HIGH", "Medium", "Low"}
  {
    if key == "HIGH" then Some(HighPill)
    else if key == "Medium" then Some(MediumPill)
    else if key == "Low" then Some(LowPill)
    else None
  }

  /** The case-insensitive fallback on the upper-cased label. */
  function UpperPill(upper: string): Option<SeverityPill>
  {
    if upper == "HIGH" then Some(HighPill)
    else if upper == "MEDIUM" || upper == "MED" then Some(MediumPill)
    else if upper == "LOW" then Some(LowPill)
    else None
  }

  /**
   * `getSeverityConfig`: no pill for a passed item or a missing or blank
   * severity; otherwise the exact entry for the trimmed label, then the
   * case-insensitive fallback, else no pill.
   */
  function SeverityConfig(status: Status, severity: Option<string>): (pill: Option<SeverityPill>)
    ensures status == Passed ==> pill == None
    ensures severity.None? || IsBlank(severity.value) ==> pill == None
    ensures pill.Some? ==> pill.value in {HighPill, MediumPill, LowPill}
    ensures status == Failed && severity.Some? && Trim(severity.value) in {"HIGH", "Medium", "Low"}
            ==> pill == ExactPill(Trim(severity.value))
  {
    if status != Failed then None
    else if !Truthy(severity) || IsBlank(severity.value) then None
    else
      var key := Trim(severity.value);
      if ExactPill(key).Some? then ExactPill(key)
      else UpperPill(ToUpper(key))
  }

  /**
   * The two-step lookup is one case-insensitive lookup: a failed item with
   * severity `s` gets HIGH exactly when `s`, trimmed and upper-cased, is HIGH;
   * Medium when it is MEDIUM or MED; Low when it is LOW; and nothing otherwise.
   */
  lemma SeverityConfigIsCaseInsensitive(s: string)
    ensures SeverityConfig(Failed, Some(s)) == UpperPill(ToUpper(Trim(s)))
  {
    var key := Trim(s);
    if ExactPill(key).Some? {
      ExactKeysAreUpperKeys(key);
    }
    if IsBlank(s) {
      assert ToUpper(key) == [];
    }
  }

  /** Each of the map's own keys, upper-cased, names the same pill. */
  lemma ExactKeysAreUpperKeys(key: string)
    requires key in {"HIGH", "Medium", "Low"}
    ensures UpperPill(ToUpper(key)) == ExactPill(key)
  {
    var u := ToUpper(key);
    if key == "HIGH" {
      assert u == "HIGH" by {
        assert u[0] == 'H' && u[1] == 'I' && u[2] == 'G' && u[3] == 'H';
      }
    } else if key == "Medium" {
      assert u == "MEDIUM" by {
        assert u[0] == 'M' && u[1] == 'E' && u[2] == 'D' && u[3] == 'I' && u[4] == 'U' && u[5] == 'M';
      }
    } else {
      assert u == "LOW" by {
        assert u[0] == 'L' && u[1] == 'O' && u[2] == 'W';
      }
    }
  }

  /** A label with no surrounding white space is looked up by its upper-cased form. */
  lemma UntrimmedLookup(s: string, upper: string)
    requires Trim(s) == s && ToUpper(s) == upper
    ensures SeverityConfig(Failed, Some(s)) == UpperPill(upper)
  {
    SeverityConfigIsCaseInsensitive(s);
  }

  /** A lower-case "high" reaches the HIGH pill through the fallback. */
  lemma LowerCaseHighExample(s: string)
    requires s == "high"
    ensures SeverityConfig(Failed, Some(s)) == Some(HighPill)
  {
    TrimIdentity(s);
    var u := ToUpper(s);
    assert u == "HIGH" by {
      assert u[0] == 'H' && u[1] == 'I' && u[2] == 'G' && u[3] == 'H';
    }
    UntrimmedLookup(s, "HIGH");
  }

  /** The abbreviation "med" reaches the Medium pill. */
  lemma AbbreviatedMediumExample(s: string)
    requires s == "med"
    ensures SeverityConfig(Failed, Some(s)) == Some(MediumPill)
  {
    TrimIdentity(s);
    var u := ToUpper(s);
    assert u == "MED" by {
      assert u[0] == 'M' && u[1] == 'E' && u[2] == 'D';
    }
    UntrimmedLookup(s, "MED");
  }

  /** A mixed-case "lOw" reaches the Low pill. */
  lemma MixedCaseLowExample(s: string)
    requires s == "lOw"
    ensures SeverityConfig(Failed, Some(s)) == Some(LowPill)
  {
    TrimIdentity(s);
    var u := ToUpper(s);
    assert u == "LOW" by {
      assert u[0] == 'L' && u[1] == 'O' && u[2] == 'W';
    }
    UntrimmedLookup(s, "LOW");
  }

  /** A label outside the three levels gets no pill. */
  lemma UnknownLabelExample(s: string)
    requires s == "critical"
    ensures SeverityConfig(Failed, Some(s)) == None
  {
    TrimIdentity(s);
    var u := ToUpper(s);
    assert |u| == 8;
    UntrimmedLookup(s, u);
  }
}
