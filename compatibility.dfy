/** ABO/Rh compatibility: for a recipient's blood type, the donor blood types
    whose blood that recipient can receive. The backend carries the same
    eight-row table twice, once for notification dispatch and once for the
    directory search of compatible donors; the two copies differ only in what
    they return for a type that is not in the table. */
module Compatibility {
  import opened Common

  /** The eight blood types the schemas accept, in the order the table lists them. */
  const BloodTypes: seq<string> := ["A+", "A-", "B+", "B-", "AB+", "AB-", "O+", "O-"]

  predicate IsBloodType(t: string)
  {
    t in BloodTypes
  }

  /** The eight-row table, keyed by the recipient's type. */
  function Table(recipient: string): Option<seq<string>>
  {
    if recipient == "A+" then Some(["A+", "A-", "O+", "O-"])
    else if recipient == "A-" then Some(["A-", "O-"])
    else if recipient == "B+" then Some(["B+", "B-", "O+", "O-"])
    else if recipient == "B-" then Some(["B-", "O-"])
    else if recipient == "AB+" then Some(["A+", "A-", "B+", "B-", "AB+", "AB-", "O+", "O-"])
    else if recipient == "AB-" then Some(["A-", "B-", "AB-", "O-"])
    else if recipient == "O+" then Some(["O+", "O-"])
    else if recipient == "O-" then Some(["O-"])
    else None
  }

  /** `getCompatibleBloodTypes`, used by dispatch: an unknown type yields no
      compatible type at all, so nobody is notified. */
  function DispatchCompatibleTypes(recipient: string): (r: seq<string>)
    ensures IsBloodType(recipient) ==> recipient in r && "O-" in r
    ensures !IsBloodType(recipient) ==> r == []
    ensures forall d :: d in r ==> IsBloodType(d)
    ensures NoDuplicates(r)
    ensures recipient == "AB+" ==> r == BloodTypes
    ensures recipient == "O-" ==> r == ["O-"]
  {
    match Table(recipient)
    case Some(types) => types
    case None => []
  }

  /** The table of `searchCompatibleDonors`: an unknown type falls back to
      the singleton list holding that type unchanged. */
  function DirectoryCompatibleTypes(recipient: string): (r: seq<string>)
    ensures IsBloodType(recipient) ==> r == DispatchCompatibleTypes(recipient)
    ensures !IsBloodType(recipient) ==> r == [recipient]
    ensures recipient in r
  {
    match Table(recipient)
    case Some(types) => types
    case None => [recipient]
  }

  // ---------------------------------------------------------------------------
  // An independent statement of the transfusion rule

  /** The red-cell antigens a blood type names: A, B and the Rh(D) factor. */
  datatype Antigens = Antigens(a: bool, b: bool, rhD: bool)

  /** Reads the antigens off the spelling of a type: the ABO group before
      the last character and the Rh sign as the last character. */
  function AntigensOf(t: string): Option<Antigens>
  {
    if |t| < 2 || (t[|t| - 1] != '+' && t[|t| - 1] != '-') then None
    else
      var group := t[..|t| - 1];
      var rh := t[|t| - 1] == '+';
      if group == "A" then Some(Antigens(true, false, rh))
      else if group == "B" then Some(Antigens(false, true, rh))
      else if group == "AB" then Some(Antigens(true, true, rh))
      else if group == "O" then Some(Antigens(false, false, rh))
      else None
  }

  /** A recipient can receive red cells carrying no antigen it lacks itself. */
  predicate CanReceive(recipient: Antigens, donor: Antigens)
  {
    && (donor.a ==> recipient.a)
    && (donor.b ==> recipient.b)
    && (donor.rhD ==> recipient.rhD)
  }

  lemma AntigensOfKnownTypes()
    ensures AntigensOf("A+") == Some(Antigens(true, false, true))
    ensures AntigensOf("A-") == Some(Antigens(true, false, false))
    ensures AntigensOf("B+") == Some(Antigens(false, true, true))
    ensures AntigensOf("B-") == Some(Antigens(false, true, false))
    ensures AntigensOf("AB+") == Some(Antigens(true, true, true))
    ensures AntigensOf("AB-") == Some(Antigens(true, true, false))
    ensures AntigensOf("O+") == Some(Antigens(false, false, true))
    ensures AntigensOf("O-") == Some(Antigens(false, false, false))
  {
    assert "A+"[..1] == "A" && "A-"[..1] == "A";
    assert "B+"[..1] == "B" && "B-"[..1] == "B";
    assert "AB+"[..2] == "AB" && "AB-"[..2] == "AB";
    assert "O+"[..1] == "O" && "O-"[..1] == "O";
  }

  /** The table is exactly the ABO/Rh rule: for a known recipient type, a
      donor type is listed if and only if it is one of the eight types and the
      recipient can receive its antigens. */
  lemma TableIsTransfusionRule(recipient: string, donor: string)
    requires IsBloodType(recipient)
    ensures donor in DispatchCompatibleTypes(recipient) <==>
            (IsBloodType(donor) && CanReceive(AntigensOf(recipient).value, AntigensOf(donor).value))
  {
    AntigensOfKnownTypes();
    assert DispatchCompatibleTypes(recipient) == Table(recipient).value;
    if IsBloodType(donor) {
      if recipient == "A+" {
        assert Table(recipient).value == ["A+", "A-", "O+", "O-"];
      } else if recipient == "A-" {
        assert Table(recipient).value == ["A-", "O-"];
      } else if recipient == "B+" {
        assert Table(recipient).value == ["B+", "B-", "O+", "O-"];
      } else if recipient == "B-" {
        assert Table(recipient).value == ["B-", "O-"];
      } else if recipient == "AB+" {
        assert Table(recipient).value == BloodTypes;
      } else if recipient == "AB-" {
        assert Table(recipient).value == ["A-", "B-", "AB-", "O-"];
      } else if recipient == "O+" {
        assert Table(recipient).value == ["O+", "O-"];
      } else {
        assert Table(recipient).value == ["O-"];
      }
    }
  }
}
