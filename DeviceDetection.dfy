/**
 * Device detection and device-to-player assignment (useDeviceDetection): the keyboard location
 * of a key event, the device category guessed from the user agent, the device id composed from
 * both, the record of detected devices, the assignment reducer that prefers numeric keypads,
 * and the lookups. The browser probes (user agent, platform, touch support, the event's
 * firesTouchEvents capability) are plain inputs.
 */
module DeviceDetection {
  import opened Wrappers
  import opened Strings

  datatype Category = Mobile | Tablet | Desktop | Unknown

  datatype KeyboardLocation = Numpad | Left | Right | Standard

  /** The event's `location` code: 3 is the numeric keypad, 1 and 2 the left and right copies of a key. */
  function LocationOf(location: int): (loc: KeyboardLocation)
    ensures loc == Numpad <==> location == 3
    ensures loc == Left <==> location == 1
    ensures loc == Right <==> location == 2
    ensures loc == Standard <==> location !in {1, 2, 3}
  {
    if location == 3 then Numpad
    else if location == 1 then Left
    else if location == 2 then Right
    else Standard
  }

  /** A case-insensitive regular-expression test for a literal word, over ASCII. */
  predicate Mentions(ua: string, word: string)
  {
    Contains(ToLower(ua), word)
  }

  /**
   * The category from the user agent, tests applied in order: Android, iPhone, iPad, desktop
   * systems. Each category is also described without the order of the tests: Android decides
   * first, and an Android device that also names Linux, iPhone or iPad is still a phone or a tablet.
   */
  function Classify(ua: string): (c: Category)
    ensures c == Mobile <==>
              (Mentions(ua, "android") && Mentions(ua, "mobile")) || (!Mentions(ua, "android") && Mentions(ua, "iphone"))
    ensures c == Tablet <==>
              (Mentions(ua, "android") && !Mentions(ua, "mobile"))
              || (!Mentions(ua, "android") && !Mentions(ua, "iphone") && Mentions(ua, "ipad"))
    ensures c == Desktop <==>
              && !Mentions(ua, "android") && !Mentions(ua, "iphone") && !Mentions(ua, "ipad")
              && (Mentions(ua, "macintosh") || Mentions(ua, "windows") || Mentions(ua, "linux") || Mentions(ua, "cros"))
    ensures c == Unknown <==>
              && !Mentions(ua, "android") && !Mentions(ua, "iphone") && !Mentions(ua, "ipad")
              && !Mentions(ua, "macintosh") && !Mentions(ua, "windows") && !Mentions(ua, "linux") && !Mentions(ua, "cros")
  {
    IPadOSImpliesIPad(ua);
    if Mentions(ua, "android") then (if Mentions(ua, "mobile") then Mobile else Tablet)
    else if Mentions(ua, "iphone") then Mobile
    else if Mentions(ua, "ipad") || Mentions(ua, "ipados") then Tablet
    else if Mentions(ua, "macintosh") || Mentions(ua, "windows") || Mentions(ua, "linux") || Mentions(ua, "cros") then Desktop
    else Unknown
  }

  /** The iPadOS alternative of the iPad test adds nothing: every user agent naming iPadOS names iPad. */
  lemma IPadOSImpliesIPad(ua: string)
    ensures Mentions(ua, "ipad") || Mentions(ua, "ipados") <==> Mentions(ua, "ipad")
  {
    if Mentions(ua, "ipados") {
      ContainsLonger(ToLower(ua), "ipados", "ipad");
    }
  }

  function CategoryName(c: Category): (name: string)
    ensures |name| >= 1
  {
    match c
    case Mobile => "mobile"
    case Tablet => "tablet"
    case Desktop => "desktop"
    case Unknown => "unknown"
  }

  function LocationName(loc: KeyboardLocation): (name: string)
    ensures |name| >= 2
  {
    match loc
    case Numpad => "numpad"
    case Left => "left"
    case Right => "right"
    case Standard => "standard"
  }

  /** JavaScript's rendering of a boolean in a template string. */
  function BoolName(b: bool): string
  {
    if b then "true" else "false"
  }

  /** The device id: category, platform, touch support, touch capability and location, joined by '-'. */
  function DeviceId(category: Category, platform: string, hasTouch: bool, firesTouch: bool, loc: KeyboardLocation): (id: string)
    ensures |CategoryName(category)| + |LocationName(loc)| <= |id|
    ensures id[..|CategoryName(category)|] == CategoryName(category)
    ensures id[|id| - |LocationName(loc)|..] == LocationName(loc)
  {
    var tail := "-" + platform + "-" + BoolName(hasTouch) + "-" + BoolName(firesTouch) + "-";
    assert (CategoryName(category) + tail + LocationName(loc))[..|CategoryName(category)|] == CategoryName(category);
    CategoryName(category) + tail + LocationName(loc)
  }

  /** Devices at different keyboard locations never share an id (the names' last two letters differ). */
  lemma LocationSeparatesIds(c1: Category, p1: string, h1: bool, f1: bool, l1: KeyboardLocation,
                             c2: Category, p2: string, h2: bool, f2: bool, l2: KeyboardLocation)
    requires l1 != l2
    ensures DeviceId(c1, p1, h1, f1, l1) != DeviceId(c2, p2, h2, f2, l2)
  {
    var id1, id2 := DeviceId(c1, p1, h1, f1, l1), DeviceId(c2, p2, h2, f2, l2);
    var n1, n2 := LocationName(l1), LocationName(l2);
    assert id1[|id1| - 2..] == n1[|n1| - 2..] by {
      assert id1[|id1| - 2..] == id1[|id1| - |n1|..][|n1| - 2..];
    }
    assert id2[|id2| - 2..] == n2[|n2| - 2..] by {
      assert id2[|id2| - 2..] == id2[|id2| - |n2|..][|n2| - 2..];
    }
    assert n1[|n1| - 2..] != n2[|n2| - 2..];
  }

  /** Devices of different categories never share an id (the names' first letters differ). */
  lemma CategorySeparatesIds(c1: Category, p1: string, h1: bool, f1: bool, l1: KeyboardLocation,
                             c2: Category, p2: string, h2: bool, f2: bool, l2: KeyboardLocation)
    requires c1 != c2
    ensures DeviceId(c1, p1, h1, f1, l1) != DeviceId(c2, p2, h2, f2, l2)
  {
    var id1, id2 := DeviceId(c1, p1, h1, f1, l1), DeviceId(c2, p2, h2, f2, l2);
    assert id1[0] == CategoryName(c1)[0] by {
      assert id1[0] == id1[..|CategoryName(c1)|][0];
    }
    assert id2[0] == CategoryName(c2)[0] by {
      assert id2[0] == id2[..|CategoryName(c2)|][0];
    }
  }

  /** What the detector records about a device; `firstSeen` is the clock at detection. */
  datatype DeviceInfo = DeviceInfo(
    id: string,
    category: Category,
    platform: string,
    hasTouch: bool,
    firesTouch: bool,
    keyboardLocation: KeyboardLocation,
    firstSeen: int)

  /** A device record whose id is the one its own characteristics compose. */
  predicate WellFormedDevice(d: DeviceInfo)
  {
    d.id == DeviceId(d.category, d.platform, d.hasTouch, d.firesTouch, d.keyboardLocation)
  }

  /** detectDeviceFromEvent, with the browser probes and the clock as inputs. */
  function DetectDevice(ua: string, platform: string, hasTouch: bool, firesTouch: bool, location: int, now: int): (d: DeviceInfo)
    ensures WellFormedDevice(d)
    ensures d.category == Classify(ua) && d.keyboardLocation == LocationOf(location)
    ensures d.platform == platform && d.hasTouch == hasTouch && d.firesTouch == firesTouch && d.firstSeen == now
  {
    var category := Classify(ua);
    var loc := LocationOf(location);
    DeviceInfo(DeviceId(category, platform, hasTouch, firesTouch, loc), category, platform, hasTouch, firesTouch, loc, now)
  }

  /** Two key events from different keyboard locations come from devices with different ids. */
  lemma DetectedLocationsSeparate(ua1: string, pl1: string, h1: bool, f1: bool, loc1: int, t1: int,
                                  ua2: string, pl2: string, h2: bool, f2: bool, loc2: int, t2: int)
    requires LocationOf(loc1) != LocationOf(loc2)
    ensures DetectDevice(ua1, pl1, h1, f1, loc1, t1).id != DetectDevice(ua2, pl2, h2, f2, loc2, t2).id
  {
    var d1, d2 := DetectDevice(ua1, pl1, h1, f1, loc1, t1), DetectDevice(ua2, pl2, h2, f2, loc2, t2);
    LocationSeparatesIds(d1.category, pl1, h1, f1, d1.keyboardLocation, d2.category, pl2, h2, f2, d2.keyboardLocation);
  }

  /** The detected-devices map: the first record seen for an id is kept. */
  function Record(detected: map<string, DeviceInfo>, d: DeviceInfo): (r: map<string, DeviceInfo>)
    ensures r.Keys == detected.Keys + {d.id}
    ensures forall id :: id in detected ==> r[id] == detected[id]
    ensures d.id !in detected ==> r[d.id] == d
  {
    if d.id in detected then detected else detected[d.id := d]
  }

  /** The assignedDevices record: the device, if any, of each player. */
  datatype Assigned = Assigned(player1: Option<DeviceInfo>, player2: Option<DeviceInfo>)

  predicate HoldsNumpad(slot: Option<DeviceInfo>)
  {
    slot.Some? && slot.value.keyboardLocation == Numpad
  }

  /** The assignment reducer for one detected device. */
  function Assign(a: Assigned, d: DeviceInfo): (r: Assigned)
    // A numeric keypad takes player 1 unless player 1 already holds one, which is never replaced.
    ensures d.keyboardLocation == Numpad && !HoldsNumpad(a.player1) ==> r == a.(player1 := Some(d))
    ensures HoldsNumpad(a.player1) ==> r.player1 == a.player1
    // A numeric keypad goes to player 2 only as a second, different keypad, displacing anything but a keypad.
    ensures r.player2 != a.player2 ==>
              && r.player2 == Some(d) && r.player1 == a.player1
              && (d.keyboardLocation == Numpad ==> HoldsNumpad(a.player1) && !HoldsNumpad(a.player2))
              && a.player1.Some? && a.player1.value.id != d.id
    ensures (d.keyboardLocation == Numpad && HoldsNumpad(a.player1) && a.player1.value.id != d.id
             && !HoldsNumpad(a.player2)) ==> r.player2 == Some(d)
    // Any other device only fills a free slot, player 1 first, and never overwrites an occupied one.
    ensures d.keyboardLocation != Numpad ==>
              && (a.player1.None? ==> r == a.(player1 := Some(d)))
              && (a.player1.Some? ==> r.player1 == a.player1)
              && (a.player2.Some? ==> r.player2 == a.player2)
              && (a.player1.Some? && a.player2.None? && a.player1.value.id != d.id ==> r.player2 == Some(d))
  {
    if d.keyboardLocation == Numpad then
      if a.player1.None? || a.player1.value.keyboardLocation != Numpad then a.(player1 := Some(d))
      else if a.player2.None? || a.player2.value.keyboardLocation != Numpad then
        if a.player1.value.id != d.id then a.(player2 := Some(d)) else a
      else a
    else
      if a.player1.None? then a.(player1 := Some(d))
      else if a.player2.None? && a.player1.value.id != d.id then a.(player2 := Some(d))
      else a
  }

  /**
   * The assignment invariant: assigned devices are well formed, player 2 is only assigned once
   * player 1 is, player 2 holds a keypad only if player 1 does, and the two slots never hold
   * the same device.
   */
  predicate AssignInv(a: Assigned)
  {
    && (a.player1.Some? ==> WellFormedDevice(a.player1.value))
    && (a.player2.Some? ==> WellFormedDevice(a.player2.value))
    && (a.player1.None? ==> a.player2.None?)
    && (HoldsNumpad(a.player2) ==> HoldsNumpad(a.player1))
    && (a.player1.Some? && a.player2.Some? ==> a.player1.value.id != a.player2.value.id)
  }

  /** The reducer keeps the invariant for every well-formed device. */
  lemma AssignKeepsInv(a: Assigned, d: DeviceInfo)
    requires AssignInv(a) && WellFormedDevice(d)
    ensures AssignInv(Assign(a, d))
  {
    var r := Assign(a, d);
    if d.keyboardLocation == Numpad && !HoldsNumpad(a.player1) && a.player2.Some? {
      // player 2 holds no keypad, so its id names another location than d's
      var p := a.player2.value;
      LocationSeparatesIds(d.category, d.platform, d.hasTouch, d.firesTouch, d.keyboardLocation,
                           p.category, p.platform, p.hasTouch, p.firesTouch, p.keyboardLocation);
    }
  }

  /** Player 1 is typing on a laptop keyboard when two keypads appear: the first takes player 1, the second player 2. */
  lemma TwoKeypadsDisplaceKeyboard(keyboard: DeviceInfo, pad1: DeviceInfo, pad2: DeviceInfo)
    requires keyboard.keyboardLocation == Standard
    requires pad1.keyboardLocation == Numpad && pad2.keyboardLocation == Numpad && pad1.id != pad2.id
    ensures var a := Assign(Assign(Assign(Assigned(None, None), keyboard), pad1), pad2);
            a == Assigned(Some(pad1), Some(pad2))
  {
  }

  /** The players a hook caller can ask about. */
  datatype PlayerNumber = One | Two

  /** isDeviceAssignedToPlayer. */
  function IsDeviceAssignedToPlayer(a: Assigned, deviceId: string, player: PlayerNumber): (b: bool)
    ensures b <==> var slot := if player == One then a.player1 else a.player2;
                   slot.Some? && slot.value.id == deviceId
    // Under the assignment invariant a device belongs to at most one player, and player 2 only once player 1 is assigned.
    ensures AssignInv(a) && b ==>
              (var other := if player == One then a.player2 else a.player1;
               !(other.Some? && other.value.id == deviceId))
    ensures AssignInv(a) && b && player == Two ==> a.player1.Some?
  {
    var slot := if player == One then a.player1 else a.player2;
    slot.Some? && slot.value.id == deviceId
  }

  /** getPlayerForDevice: player 1 is checked first. */
  function GetPlayerForDevice(a: Assigned, deviceId: string): (p: Option<PlayerNumber>)
    ensures p == Some(One) <==> IsDeviceAssignedToPlayer(a, deviceId, One)
    ensures p == Some(Two) <==> IsDeviceAssignedToPlayer(a, deviceId, Two) && !IsDeviceAssignedToPlayer(a, deviceId, One)
    ensures p == None <==> !IsDeviceAssignedToPlayer(a, deviceId, One) && !IsDeviceAssignedToPlayer(a, deviceId, Two)
  {
    if a.player1.Some? && a.player1.value.id == deviceId then Some(One)
    else if a.player2.Some? && a.player2.value.id == deviceId then Some(Two)
    else None
  }

  /** Under the invariant the two lookups agree exactly: a device belongs to at most one player. */
  lemma LookupsAgree(a: Assigned, deviceId: string, player: PlayerNumber)
    requires AssignInv(a)
    ensures GetPlayerForDevice(a, deviceId) == Some(player) <==> IsDeviceAssignedToPlayer(a, deviceId, player)
  {
  }

  /** The hook's state: the devices seen so far, keyed by id, and the players' devices. */
  class DeviceTracker {
    var detectedDevices: map<string, DeviceInfo>
    var assignedDevices: Assigned

    ghost predicate Valid()
      reads this
    {
      && AssignInv(assignedDevices)
      && forall id :: id in detectedDevices ==> detectedDevices[id].id == id && WellFormedDevice(detectedDevices[id])
    }

    constructor ()
      ensures Valid() && detectedDevices == map[] && assignedDevices == Assigned(None, None)
    {
      detectedDevices := map[];
      assignedDevices := Assigned(None, None);
    }

    /** The key handler: detect the device, record it if new, and run the assignment reducer. */
    method HandleKeyDown(ua: string, platform: string, hasTouch: bool, firesTouch: bool, location: int, now: int)
      requires Valid()
      modifies this
      ensures Valid()
      ensures var d := DetectDevice(ua, platform, hasTouch, firesTouch, location, now);
              detectedDevices == Record(old(detectedDevices), d) && assignedDevices == Assign(old(assignedDevices), d)
    {
      var d := DetectDevice(ua, platform, hasTouch, firesTouch, location, now);
      if d.id !in detectedDevices {
        detectedDevices := detectedDevices[d.id := d];
      }
      AssignDevice(d);
    }

    /** The reducer's update of assignedDevices, prioritising numeric keypads. */
    method AssignDevice(d: DeviceInfo)
      requires AssignInv(assignedDevices) && WellFormedDevice(d)
      modifies this
      ensures AssignInv(assignedDevices)
      ensures assignedDevices == Assign(old(assignedDevices), d) && detectedDevices == old(detectedDevices)
    {
      AssignKeepsInv(assignedDevices, d);
      var prev := assignedDevices;
      var updated := prev;
      if d.keyboardLocation == Numpad {
        if prev.player1.None? || prev.player1.value.keyboardLocation != Numpad {
          updated := updated.(player1 := Some(d));
        } else if prev.player2.None? || prev.player2.value.keyboardLocation != Numpad {
          if prev.player1.value.id != d.id {
            updated := updated.(player2 := Some(d));
          }
        }
      } else {
        if prev.player1.None? {
          updated := updated.(player1 := Some(d));
        } else if prev.player2.None? && prev.player1.value.id != d.id {
          updated := updated.(player2 := Some(d));
        }
      }
      assignedDevices := updated;
    }

    /** resetDeviceAssignments: both players unassigned and the detected devices forgotten. */
    method ResetDeviceAssignments()
      modifies this
      ensures Valid() && detectedDevices == map[] && assignedDevices == Assigned(None, None)
    {
      assignedDevices := Assigned(None, None);
      detectedDevices := map[];
    }
  }
}
