/**
 * The tables page: the occupancy summary cards above the table list and the
 * short link printed under each table's QR code.
 */
module Tables {
  import Seqs
  import opened Text

  datatype TableStatus = Available | Occupied | Reserved

  /** `TableRecord`. */
  datatype TableRecord = TableRecord(
    id: string, status: TableStatus, waiter: string, section: string, seats: int, qrUrl: string)

  /** The address every seeded QR code points at, before the table id. */
  const MenuBase: string := "servesense.app/menu?table="

  /** The scheme the seeded QR addresses use. */
  const Scheme: string := "https://"

  /** The seeded QR address of a table. */
  function QrUrl(id: string): (url: string)
    ensures Scheme <= url
  {
    Scheme + (MenuBase + id)
  }

  /** `tables`: the four seeded tables. */
  const SeedTables: seq<TableRecord> := [Table01, Table02, Table03, Table04]

  const Table01: TableRecord := TableRecord("T01", Occupied, "Alex", "Patio", 4, "https://servesense.app/menu?table=T01")
  const Table02: TableRecord := TableRecord("T02", Available, "Jamie", "Main", 2, "https://servesense.app/menu?table=T02")
  const Table03: TableRecord := TableRecord("T03", Reserved, "Priya", "Lounge", 6, "https://servesense.app/menu?table=T03")
  const Table04: TableRecord := TableRecord("T04", Occupied, "Jordan", "Main", 4, "https://servesense.app/menu?table=T04")

  /** `occupancySummary`. */
  datatype Summary = Summary(total: nat, available: nat, reserved: nat, occupied: nat)

  /** The filter test for one status. */
  function HasStatus(status: TableStatus): TableRecord -> bool {
    (t: TableRecord) => t.status == status
  }

  /** The number of tables with the given status, as `filter(...).length`. */
  function CountStatus(tables: seq<TableRecord>, status: TableStatus): (n: nat)
    ensures n <= |tables|
  {
    |Seqs.Filter(tables, HasStatus(status))|
  }

  /** The summary: the table count and one count per status. */
  function OccupancySummary(tables: seq<TableRecord>): (s: Summary)
    ensures s.total == |tables|
    ensures s.available <= s.total && s.reserved <= s.total && s.occupied <= s.total
    ensures s.available == CountStatus(tables, Available)
    ensures s.reserved == CountStatus(tables, Reserved)
    ensures s.occupied == CountStatus(tables, Occupied)
  {
    Summary(|tables|, CountStatus(tables, Available), CountStatus(tables, Reserved),
      CountStatus(tables, Occupied))
  }

  /** Every table has exactly one of the three statuses, so the three counts add up to the total. */
  lemma {:induction false} CountsPartition(tables: seq<TableRecord>)
    ensures CountStatus(tables, Available) + CountStatus(tables, Reserved) + CountStatus(tables, Occupied)
      == |tables|
  {
    if tables != [] {
      CountsPartition(tables[1..]);
    }
  }

  /** The summary cards' three status counts add up to the "Total tables" card. */
  lemma SummaryAddsUp(tables: seq<TableRecord>)
    ensures var s := OccupancySummary(tables);
      s.available + s.reserved + s.occupied == s.total
  {
    CountsPartition(tables);
  }

  /** The seeded floor: four tables, one available, one reserved and two occupied. */
  lemma SeededSummary()
    ensures OccupancySummary(SeedTables) == Summary(4, 1, 1, 2)
  {
    SeededCount(Available, 1);
    SeededCount(Reserved, 1);
    SeededCount(Occupied, 2);
  }

  /** One status of the seeded floor, counted table by table. */
  lemma SeededCount(status: TableStatus, n: nat)
    requires n == if status == Occupied then 2 else 1
    ensures CountStatus(SeedTables, status) == n
  {
    var s := SeedTables;
    assert s[0].status == Occupied && s[1].status == Available;
    assert s[2].status == Reserved && s[3].status == Occupied;
    assert s[1..][1..] == s[2..] && s[2..][1..] == s[3..] && s[3..][1..] == [];
    CountStatusCons(s, status);
    CountStatusCons(s[1..], status);
    CountStatusCons(s[2..], status);
    CountStatusCons(s[3..], status);
  }

  /** Counting peels one table at a time. */
  lemma CountStatusCons(tables: seq<TableRecord>, status: TableStatus)
    requires tables != []
    ensures CountStatus(tables, status) ==
      (if tables[0].status == status then 1 else 0) + CountStatus(tables[1..], status)
  {
  }

  // ----- QR short link -----

  /** `qrUrl.replace("https://", "")`: the first occurrence of the scheme is removed. */
  function ShortLink(qrUrl: string): (link: string)
    ensures link == qrUrl || |link| + |Scheme| == |qrUrl|
  {
    ReplaceFirst(qrUrl, Scheme, "")
  }

  /** The short link of an address that starts with the scheme is the address without it. */
  lemma ShortLinkDropsScheme(url: string)
    requires Scheme <= url
    ensures ShortLink(url) == url[|Scheme|..]
    ensures Scheme + ShortLink(url) == url
  {
    ReplaceLeadingOccurrence(url, Scheme);
  }

  /** An address without the scheme anywhere in it is printed as is. */
  lemma ShortLinkWithoutScheme(url: string)
    requires forall i :: !OccursAt(url, Scheme, i)
    ensures ShortLink(url) == url
  {
    ReplaceAbsent(url, Scheme, "");
  }

  /** The printed link of a seeded table is the menu address followed by its id. */
  lemma ShortLinkOfQrUrl(id: string)
    ensures ShortLink(QrUrl(id)) == MenuBase + id
  {
    var url := QrUrl(id);
    ShortLinkDropsScheme(url);
    DropPrefix(Scheme, MenuBase + id);
  }

  /** A table whose QR address is the menu address for its own id. */
  predicate LinksToOwnMenu(t: TableRecord) {
    t.qrUrl == QrUrl(t.id)
  }

  /** Dropping the first part of a concatenation leaves the second. */
  lemma DropPrefix(a: string, b: string)
    ensures (a + b)[|a|..] == b
  {
  }

  /** Every seeded table's QR address is the menu address for its own id. */
  lemma SeededQrUrls()
    ensures forall k :: 0 <= k < |SeedTables| ==> LinksToOwnMenu(SeedTables[k])
  {
    SeededQrUrl01();
    SeededQrUrl02();
    SeededQrUrl03();
    SeededQrUrl04();
  }

  // One lemma per seeded table keeps each literal comparison small.
  lemma SeededQrUrl01() ensures LinksToOwnMenu(Table01) { }
  lemma SeededQrUrl02() ensures LinksToOwnMenu(Table02) { }
  lemma SeededQrUrl03() ensures LinksToOwnMenu(Table03) { }
  lemma SeededQrUrl04() ensures LinksToOwnMenu(Table04) { }
}
