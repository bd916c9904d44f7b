/** How a service's status record is turned into labels: the state code
    into one of seven lifecycle labels, the type bitmask into a category by
    an ordered first-match scan, and the category into the eligibility
    flag that gates every control request. */
module Classifier {
  import opened Wrappers
  import opened Win32

  /** The lifecycle labels of the state codes 1 to 7, in code order. */
  const StateNames: seq<string> :=
    ["Stopped", "Start Pending", "Stop Pending", "Running",
     "Continue Pending", "Pause Pending", "Paused"]

  /** Label of a dwCurrentState code: one of the seven names for a known
      code, "Unknown" for every other value. */
  function StateLabel(code: bv32): (text: string)
    ensures 1 <= code as int <= 7 ==> text == StateNames[code as int - 1]
    ensures text == "Unknown" <==> !(1 <= code as int <= 7)
  {
    match code as int
    case 1 => "Stopped"
    case 2 => "Start Pending"
    case 3 => "Stop Pending"
    case 4 => "Running"
    case 5 => "Continue Pending"
    case 6 => "Pause Pending"
    case 7 => "Paused"
    case _ => "Unknown"
  }

  /** The code a state label stands for: the inverse of StateLabel. */
  function StateCode(text: string): Option<bv32>
  {
    if text == "Stopped" then Some(1)
    else if text == "Start Pending" then Some(2)
    else if text == "Stop Pending" then Some(3)
    else if text == "Running" then Some(4)
    else if text == "Continue Pending" then Some(5)
    else if text == "Pause Pending" then Some(6)
    else if text == "Paused" then Some(7)
    else None
  }

  /** Each known code can be read back from its label, so no two known
      codes share a label; every other code loses its value. */
  lemma StateLabelRoundTrip(code: bv32)
    ensures StateCode(StateLabel(code)) == (if 1 <= code as int <= 7 then Some(code) else None)
  {
  }

  /** The categories, in the order they are tested. */
  const TypeTable: seq<(bv32, string)> := [
    (FileSystemDriver, "File System Driver"),
    (KernelDriver, "Kernel Driver"),
    (Win32OwnProcess, "Win32 Own Process"),
    (Win32ShareProcess, "Win32 Share Process"),
    (UserOwnProcess, "User Own Process"),
    (UserShareProcess, "User Share Process")]

  /** Every bit some category tests. */
  const TestedBits: bv32 :=
    FileSystemDriver | KernelDriver | Win32OwnProcess | Win32ShareProcess | UserOwnProcess | UserShareProcess

  /** The label shown to the user and the type value used for eligibility. */
  datatype Classification = Classification(text: string, serviceType: bv32)

  /** The test the scan applies to each entry: some bit in common. */
  predicate Meets(flag: bv32, bits: bv32)
  {
    flag & bits != 0
  }

  /** The index of the first entry whose bits meet `flag`, if any. */
  function FirstMatch(table: seq<(bv32, string)>, flag: bv32): (r: Option<nat>)
    ensures r.Some? ==> r.value < |table| && Meets(flag, table[r.value].0)
    ensures r.Some? ==> forall j :: 0 <= j < r.value ==> !Meets(flag, table[j].0)
    ensures r.None? ==> forall j :: 0 <= j < |table| ==> !Meets(flag, table[j].0)
  {
    if table == [] then None
    else if Meets(flag, table[0].0) then Some(0)
    else match FirstMatch(table[1..], flag)
      case None => None
      case Some(k) => Some(k + 1)
  }

  /** The first-match rule: the earliest entry that meets the flag decides
      label and type; with no match the label is "unknown" and the type is
      the raw flag. */
  function Classify(flag: bv32): (c: Classification)
    ensures c.text == "unknown" ==> c.serviceType == flag
    ensures c.text != "unknown" ==> (c.serviceType, c.text) in TypeTable && Meets(flag, c.serviceType)
  {
    match FirstMatch(TypeTable, flag)
    case None => Classification("unknown", flag)
    case Some(i) => Classification(TypeTable[i].1, TypeTable[i].0)
  }

  /** Only the two Win32 process types may be controlled: never a type
      with a driver bit, and never the user-own or user-share value. */
  predicate IsWin32Process(serviceType: bv32)
    ensures IsWin32Process(serviceType) ==>
      serviceType & (FileSystemDriver | KernelDriver) == 0 &&
      serviceType != UserOwnProcess && serviceType != UserShareProcess
  {
    serviceType == Win32OwnProcess || serviceType == Win32ShareProcess
  }

  /** The scan over the category table, stopping at the first match. */
  method ClassifyServiceType(flag: bv32) returns (text: string, serviceType: bv32)
    ensures Classification(text, serviceType) == Classify(flag)
  {
    text := "unknown";
    serviceType := flag;
    var types := TypeTable;
    for i := 0 to |types|
      invariant forall j :: 0 <= j < i ==> !Meets(flag, types[j].0)
      invariant text == "unknown" && serviceType == flag
    {
      var (bits, description) := types[i];
      if Meets(flag, bits) {
        FirstMatchAt(types, flag, i);
        text := description;
        serviceType := bits;
        break;
      }
    }
  }

  /** An entry that meets the flag with none before it is the first match. */
  lemma FirstMatchAt(table: seq<(bv32, string)>, flag: bv32, i: nat)
    requires i < |table| && Meets(flag, table[i].0)
    requires forall j :: 0 <= j < i ==> !Meets(flag, table[j].0)
    ensures FirstMatch(table, flag) == Some(i)
  {
  }

  /** A flag that meets no entry has no first match. */
  lemma NoMatch(table: seq<(bv32, string)>, flag: bv32)
    requires forall j :: 0 <= j < |table| ==> !Meets(flag, table[j].0)
    ensures FirstMatch(table, flag) == None
  {
  }

  /** The table scan agrees with the rule written out as a chain of tests. */
  lemma ClassifyCases(flag: bv32)
    ensures Classify(flag) ==
      if flag & FileSystemDriver != 0 then Classification("File System Driver", FileSystemDriver)
      else if flag & KernelDriver != 0 then Classification("Kernel Driver", KernelDriver)
      else if flag & Win32OwnProcess != 0 then Classification("Win32 Own Process", Win32OwnProcess)
      else if flag & Win32ShareProcess != 0 then Classification("Win32 Share Process", Win32ShareProcess)
      else if flag & UserOwnProcess != 0 then Classification("User Own Process", UserOwnProcess)
      else if flag & UserShareProcess != 0 then Classification("User Share Process", UserShareProcess)
      else Classification("unknown", flag)
  {
    var t := TypeTable;
    if flag & FileSystemDriver != 0 {
      FirstMatchAt(t, flag, 0);
    } else if flag & KernelDriver != 0 {
      FirstMatchAt(t, flag, 1);
    } else if flag & Win32OwnProcess != 0 {
      FirstMatchAt(t, flag, 2);
    } else if flag & Win32ShareProcess != 0 {
      FirstMatchAt(t, flag, 3);
    } else if flag & UserOwnProcess != 0 {
      FirstMatchAt(t, flag, 4);
    } else if flag & UserShareProcess != 0 {
      assert false;
    } else {
      NoMatch(t, flag);
    }
  }

  /** A flag none of whose tested bits is set is labelled "unknown" and
      keeps its raw value as its type; every other flag gets a table label. */
  lemma UnclassifiedKeepsRawType(flag: bv32)
    ensures Classify(flag).text == "unknown" <==> flag & TestedBits == 0
    ensures flag & TestedBits == 0 ==> Classify(flag).serviceType == flag
  {
    ClassifyCases(flag);
  }

  /** A service may be controlled exactly when it is classified as one of
      the two Win32 process categories; an unclassified one never may. */
  lemma EligibleIffWin32Label(flag: bv32)
    ensures IsWin32Process(Classify(flag).serviceType) <==>
      Classify(flag).text == "Win32 Own Process" || Classify(flag).text == "Win32 Share Process"
    ensures Classify(flag).text == "unknown" ==> !IsWin32Process(Classify(flag).serviceType)
  {
    ClassifyCases(flag);
  }

  /** Any driver bit decides the category before the process bits are
      looked at, so a driver is never eligible. */
  lemma DriversNeverEligible(flag: bv32)
    ensures flag & (FileSystemDriver | KernelDriver) != 0 ==>
      (Classify(flag).text == "File System Driver" || Classify(flag).text == "Kernel Driver") &&
      !IsWin32Process(Classify(flag).serviceType)
  {
    ClassifyCases(flag);
  }

  /** What each of the six category values is classified as.  The two user
      values contain a Win32 bit that is tested first. */
  lemma CategoryValues()
    ensures Classify(FileSystemDriver) == Classification("File System Driver", FileSystemDriver)
    ensures Classify(KernelDriver) == Classification("Kernel Driver", KernelDriver)
    ensures Classify(Win32OwnProcess) == Classification("Win32 Own Process", Win32OwnProcess)
    ensures Classify(Win32ShareProcess) == Classification("Win32 Share Process", Win32ShareProcess)
    ensures Classify(UserOwnProcess) == Classification("Win32 Own Process", Win32OwnProcess)
    ensures Classify(UserShareProcess) == Classification("Win32 Share Process", Win32ShareProcess)
  {
    ClassifyCases(FileSystemDriver);
    ClassifyCases(KernelDriver);
    ClassifyCases(Win32OwnProcess);
    ClassifyCases(Win32ShareProcess);
    ClassifyCases(UserOwnProcess);
    ClassifyCases(UserShareProcess);
  }

  /** "User Share Process" is never the outcome: every bit of its mask is
      tested earlier. */
  lemma UserShareUnreachable(flag: bv32)
    ensures Classify(flag).text != "User Share Process"
  {
    ClassifyCases(flag);
  }

  /** "User Own Process" is the outcome only for a flag with the user bit
      0x40 and no driver or Win32 bit, a value no real user service has. */
  lemma UserOwnOnlyForBareUserBit(flag: bv32)
    ensures Classify(flag).text == "User Own Process" <==>
      flag & (FileSystemDriver | KernelDriver | Win32OwnProcess | Win32ShareProcess) == 0 && flag & 0x40 != 0
  {
    ClassifyCases(flag);
  }

  /** A per-user service (its flag holds the whole user-own or user-share
      mask, and no driver bit) is classified as a Win32 process and so
      becomes eligible for control. */
  lemma UserServicesClassifiedAsWin32(flag: bv32)
    ensures flag & (FileSystemDriver | KernelDriver) == 0 && flag & UserOwnProcess == UserOwnProcess ==>
      Classify(flag) == Classification("Win32 Own Process", Win32OwnProcess) && IsWin32Process(Classify(flag).serviceType)
    ensures flag & (FileSystemDriver | KernelDriver | Win32OwnProcess) == 0 && flag & UserShareProcess == UserShareProcess ==>
      Classify(flag) == Classification("Win32 Share Process", Win32ShareProcess) && IsWin32Process(Classify(flag).serviceType)
  {
    ClassifyCases(flag);
  }
}
