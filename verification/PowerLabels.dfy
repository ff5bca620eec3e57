/**
 What alarms call a channel: the name in the cached table of channel metadata, or CH and its number. Whether this
 tells two channels apart is up to those who name them.
 */
module PowerLabels {
  import opened Wrappers
  import opened AlarmPayload
  import P = PowerInference
  import ChangePoint

  /** A channel of a device; the device may be missing. */
  datatype Place = Place(device: Option<string>, number: nat)

  /** By number the channels with an entry; None where the entry has no name. */
  datatype Device = Device(id: string, names: map<nat, Option<string>>)

  /** The devices in the order of the last refresh. */
  type Table = seq<Device>

  function NameAt(table: Table, id: string, number: nat): Option<string> {
    if table == [] then None
    else if table[0].id != id then NameAt(table[1..], id, number)
    else if number in table[0].names then table[0].names[number] else None
  }

  /** Without a device the first one that knows the channel answers. */
  function FirstName(table: Table, number: nat): Option<string> {
    if table == [] then None
    else if number in table[0].names then table[0].names[number] else FirstName(table[1..], number)
  }

  function EntryName(table: Table, place: Place): Option<string> {
    match place.device
    case None => FirstName(table, place.number)
    case Some(id) => NameAt(table, id, place.number)
  }

  function Label(table: Table, place: Place): (text: string)
    ensures text != ""
  {
    if Filled(EntryName(table, place)) then EntryName(table, place).value else "CH" + IntText(place.number)
  }

  /** A place's name at a time: the table is refreshed now and then. */
  type Naming = (Place, int) -> string

  function Labels(tables: int -> Table): Naming {
    (place, t) => Label(tables(t), place)
  }

  /** The names of a table that is never refreshed. */
  function SteadyLabels(table: Table): Naming {
    (place, _) => Label(table, place)
  }

  predicate Enabled(place: Place) { P.InferenceEnabled(ChangePoint.Channel(place.number, "watt")) }

  /** Two places that inference covers alike bear the same name within a TTL. */
  predicate Confused(name: Naming, ttl: int, p: Place, q: Place, t: int, u: int) {
    p != q && Enabled(p) == Enabled(q) && t <= u < t + ttl && name(p, t) == name(q, u) != ""
  }

  /** Within a TTL no two places that inference covers alike bear the same name; the empty name makes no key. */
  ghost predicate NamesDistinguish(places: iset<Place>, name: Naming, ttl: int) {
    forall p, q, t, u | p in places && q in places :: !Confused(name, ttl, p, q, t, u)
  }

  // ---------------------------------------------------------------------------
  // What tables do distinguish
  // ---------------------------------------------------------------------------

  /** The table names all places apart that inference covers alike. */
  ghost predicate Apart(places: iset<Place>, table: Table) {
    forall p, q | p in places && q in places && p != q && Enabled(p) == Enabled(q) :: Label(table, p) != Label(table, q)
  }

  lemma SteadyTableDistinguishesIff(places: iset<Place>, table: Table, ttl: int)
    requires ttl > 0
    ensures NamesDistinguish(places, SteadyLabels(table), ttl) <==> Apart(places, table)
  {
    var name := SteadyLabels(table);
    if !Apart(places, table) {
      var p, q :| p in places && q in places && p != q && Enabled(p) == Enabled(q)
                  && Label(table, p) == Label(table, q);
      assert Confused(name, ttl, p, q, 0, 0);
    }
  }

  /** Places without a name are told apart iff no two have the same number, on whatever devices. */
  lemma UnnamedApartIff(places: iset<Place>, table: Table)
    requires forall p | p in places :: !Filled(EntryName(table, p))
    ensures Apart(places, table) <==> forall p, q | p in places && q in places && p != q :: p.number != q.number
  {
    forall p, q | p in places && q in places && Label(table, p) == Label(table, q) ensures p.number == q.number {
      var m, n := IntText(p.number), IntText(q.number);
      assert ("CH" + m)[2..] == m && ("CH" + n)[2..] == n;
      IntTextInjective(p.number, q.number);
    }
  }

  /** Without a device a channel bears the name of the first device that knows it. */
  lemma {:induction false} MissingDeviceBorrows(before: Table, d: Device, after: Table, number: nat)
    requires number in d.names && forall e <- before :: number !in e.names && e.id != d.id
    ensures Label(before + [d] + after, Place(None, number)) == Label(before + [d] + after, Place(Some(d.id), number))
  {
    var table := before + [d] + after;
    if before == [] {
      assert table[0] == d;
    } else {
      assert before[0] in before;
      assert table[0] == before[0] && table[1..] == before[1..] + [d] + after;
      MissingDeviceBorrows(before[1..], d, after, number);
    }
  }

  /** A refresh that exchanges two names mixes them, although each table on its own tells the channels apart. */
  lemma RefreshMixesNames(at: int, ttl: int)
    requires ttl > 1
    ensures var places := iset{Place(Some("pm-1"), 2), Place(Some("pm-1"), 3)};
            var was: Table := [Device("pm-1", map[2 := Some("fan"), 3 := Some("pump")])];
            var now: Table := [Device("pm-1", map[2 := Some("pump"), 3 := Some("fan")])];
            && Apart(places, was) && Apart(places, now)
            && !NamesDistinguish(places, Labels(t => if t < at then was else now), ttl)
  {
    var was: Table := [Device("pm-1", map[2 := Some("fan"), 3 := Some("pump")])];
    var now: Table := [Device("pm-1", map[2 := Some("pump"), 3 := Some("fan")])];
    var p, q := Place(Some("pm-1"), 2), Place(Some("pm-1"), 3);
    assert Label(was, p) == Label(now, q) == "fan" && Label(was, q) == Label(now, p) == "pump" && "fan" != "pump";
    assert Confused(Labels(t => if t < at then was else now), ttl, p, q, at - 1, at);
  }
}
