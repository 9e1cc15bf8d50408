/** What an entry of the socket table says, read off the lines and their words by position. */
module SocketMeaning {
  import opened Wrappers
  import opened SocketDetails
  import opened SocketStats

  // ----- Words by position -----

  /** The word is the value of the rate named before it. */
  predicate IsValue(tokens: seq<Token>, i: nat) {
    0 < i < |tokens| && tokens[i - 1].form.RateName? && !IsValue(tokens, i - 1)
  }

  /** The metrics given by a word, for a rate by the word after it. */
  function GivenBy(tokens: seq<Token>, i: nat): map<string, int>
    requires i < |tokens|
  {
    if IsValue(tokens, i) then map[]
    else
      match tokens[i].form
      case RateName(metric, _) =>
        if i + 1 < |tokens| && tokens[i + 1].rate.Some? then map[metric := tokens[i + 1].rate.value] else map[]
      case Setting(values) => if values.Some? then values.value else map[]
      case _ => map[]
  }

  /** The word cannot be read: a setting without values, or a rate whose value is none. */
  predicate IsUnreadable(tokens: seq<Token>, i: nat)
    requires i < |tokens|
  {
    !IsValue(tokens, i) &&
    match tokens[i].form
    case RateName(_, _) => i + 1 < |tokens| && tokens[i + 1].rate.None?
    case Setting(values) => values.None?
    case _ => false
  }

  /** A word that is nothing else; the name of a rate at the end of the line is one as well. */
  function NamedBy(tokens: seq<Token>, i: nat): string
    requires i < |tokens|
  {
    if IsValue(tokens, i) then ""
    else
      match tokens[i].form
      case Word(text) => text
      case RateName(_, text) => if i + 1 == |tokens| then text else ""
      case _ => ""
  }

  predicate IsFlag(tokens: seq<Token>, i: nat)
    requires i < |tokens|
  {
    !IsValue(tokens, i) && tokens[i].form.AppLimited?
  }

  ghost predicate IsMetric(tokens: seq<Token>, metric: string, value: int) {
    exists i :: 0 <= i < |tokens| && metric in GivenBy(tokens, i) && GivenBy(tokens, i)[metric] == value &&
                forall j :: i < j < |tokens| ==> metric !in GivenBy(tokens, j)
  }

  ghost predicate IsAlgorithm(tokens: seq<Token>, name: string) {
    if name == "" then forall i :: 0 <= i < |tokens| ==> NamedBy(tokens, i) == ""
    else
      exists i :: 0 <= i < |tokens| && NamedBy(tokens, i) == name &&
                  forall j :: 0 <= j < i ==> NamedBy(tokens, j) == ""
  }

  /** The last word that gives a metric gives its value, the first name is that of the congestion
      control, and one unreadable word makes the line unreadable. */
  ghost predicate IsDetail(tokens: seq<Token>, r: Result<Detail, DetailError>) {
    match r
    case Failure(_) => exists i :: 0 <= i < |tokens| && IsUnreadable(tokens, i)
    case Success(d) =>
      && (forall i :: 0 <= i < |tokens| ==> !IsUnreadable(tokens, i))
      && (d.appLimited <==> exists i :: 0 <= i < |tokens| && IsFlag(tokens, i))
      && (forall metric :: metric in d.metrics ==> IsMetric(tokens, metric, d.metrics[metric]))
      && (forall i, metric | 0 <= i < |tokens| && metric in GivenBy(tokens, i) :: metric in d.metrics)
      && IsAlgorithm(tokens, d.congestionAlgorithm)
  }

  // ----- Items and positions -----

  /** The positions from k on where an item starts. */
  function Starts(tokens: seq<Token>, k: nat): seq<nat>
    decreases |tokens| - k
  {
    if k >= |tokens| then []
    else [k] + Starts(tokens, if tokens[k].form.RateName? && k + 1 < |tokens| then k + 2 else k + 1)
  }

  function ItemAt(tokens: seq<Token>, i: nat): Item
    requires i < |tokens|
  {
    match tokens[i].form
    case AppLimited => Flag
    case RateName(metric, text) =>
      if i + 1 == |tokens| then Name(text) else Values(RateValues(metric, tokens[i + 1].rate))
    case Setting(values) => Values(values)
    case Word(text) => Name(text)
  }

  lemma {:induction false} StartsAreNoValues(tokens: seq<Token>, k: nat)
    requires !IsValue(tokens, k)
    ensures forall i :: i in Starts(tokens, k) <==> k <= i < |tokens| && !IsValue(tokens, i)
    ensures forall a, b :: 0 <= a < b < |Starts(tokens, k)| ==> Starts(tokens, k)[a] < Starts(tokens, k)[b]
    decreases |tokens| - k
  {
    if k < |tokens| {
      var next := if tokens[k].form.RateName? && k + 1 < |tokens| then k + 2 else k + 1;
      assert !IsValue(tokens, next);
      StartsAreNoValues(tokens, next);
      assert next == k + 2 ==> IsValue(tokens, k + 1);
      var rest := Starts(tokens, next);
      forall b | 0 <= b < |rest| ensures k < rest[b] {
        assert rest[b] in rest;
      }
    }
  }

  lemma {:induction false} ItemsAtStarts(tokens: seq<Token>, k: nat)
    requires k <= |tokens|
    ensures var items, starts := Items(tokens[k..]), Starts(tokens, k);
      && |items| == |starts|
      && forall a :: 0 <= a < |starts| ==> starts[a] < |tokens| && items[a] == ItemAt(tokens, starts[a])
    decreases |tokens| - k
  {
    if k < |tokens| {
      var next := if tokens[k].form.RateName? && k + 1 < |tokens| then k + 2 else k + 1;
      ItemsAtStarts(tokens, next);
      assert tokens[k..][next - k..] == tokens[next..];
      assert Items(tokens[k..]) == [ItemAt(tokens, k)] + Items(tokens[next..]);
    }
  }

  /** The items of a line are those at its positions that are no values, in order. */
  ghost predicate AreItems(tokens: seq<Token>, items: seq<Item>, starts: seq<nat>) {
    && |items| == |starts|
    && (forall a :: 0 <= a < |starts| ==> starts[a] < |tokens| && items[a] == ItemAt(tokens, starts[a]))
    && (forall a, b :: 0 <= a < b < |starts| ==> starts[a] < starts[b])
    && (forall i :: i in starts <==> 0 <= i < |tokens| && !IsValue(tokens, i))
  }

  lemma ItemsOfLine(tokens: seq<Token>)
    ensures AreItems(tokens, Items(tokens), Starts(tokens, 0))
  {
    assert tokens[0..] == tokens;
    ItemsAtStarts(tokens, 0);
    StartsAreNoValues(tokens, 0);
  }

  lemma ItemMeans(tokens: seq<Token>, i: nat)
    requires i < |tokens| && !IsValue(tokens, i)
    ensures var item := ItemAt(tokens, i);
      && (IsReadable(item) <==> !IsUnreadable(tokens, i)) && ValuesOf(item) == GivenBy(tokens, i)
      && (item == Flag <==> IsFlag(tokens, i)) && NamedBy(tokens, i) == if item.Name? then item.text else ""
  {
  }

  lemma MetricMeans(tokens: seq<Token>, items: seq<Item>, starts: seq<nat>, metric: string)
    requires AreItems(tokens, items, starts)
    ensures metric in Metrics(items) ==> IsMetric(tokens, metric, Metrics(items)[metric])
    ensures forall i | 0 <= i < |tokens| && metric in GivenBy(tokens, i) :: metric in Metrics(items)
  {
    LastValueWins(items, metric);
    if metric in Metrics(items) {
      var a :| 0 <= a < |items| && metric in ValuesOf(items[a]) &&
          ValuesOf(items[a])[metric] == Metrics(items)[metric] &&
        forall b :: a < b < |items| ==> metric !in ValuesOf(items[b]);
      assert starts[a] in starts;
      ItemMeans(tokens, starts[a]);
      forall j | starts[a] < j < |tokens| ensures metric !in GivenBy(tokens, j) {
        if !IsValue(tokens, j) {
          var b :| 0 <= b < |starts| && starts[b] == j;
          ItemMeans(tokens, j);
          assert a < b;
        }
      }
    }
    forall i | 0 <= i < |tokens| && metric in GivenBy(tokens, i) ensures metric in Metrics(items) {
      var a :| 0 <= a < |starts| && starts[a] == i;
      ItemMeans(tokens, i);
      assert items[a] in items;
    }
  }

  lemma AlgorithmMeans(tokens: seq<Token>, items: seq<Item>, starts: seq<nat>)
    requires AreItems(tokens, items, starts)
    ensures IsAlgorithm(tokens, FirstName(items))
  {
    FirstNameWins(items);
    if FirstName(items) == "" {
      forall i | 0 <= i < |tokens| ensures NamedBy(tokens, i) == "" {
        if !IsValue(tokens, i) {
          var a :| 0 <= a < |starts| && starts[a] == i;
          ItemMeans(tokens, i);
          assert items[a] in items;
        }
      }
    } else {
      var a :| 0 <= a < |items| && items[a] == Name(FirstName(items)) &&
        forall b :: 0 <= b < a && items[b].Name? ==> items[b].text == "";
      assert starts[a] in starts;
      ItemMeans(tokens, starts[a]);
      forall j | 0 <= j < starts[a] ensures NamedBy(tokens, j) == "" {
        if !IsValue(tokens, j) {
          var b :| 0 <= b < |starts| && starts[b] == j;
          ItemMeans(tokens, j);
          assert b < a;
        }
      }
    }
  }

  /** A line of details says what its words say, by position. */
  lemma DetailMeans(tokens: seq<Token>)
    ensures IsDetail(tokens, DetailOf(tokens))
  {
    var items, starts := Items(tokens), Starts(tokens, 0);
    ItemsOfLine(tokens);
    AlgorithmMeans(tokens, items, starts);
    forall metric { MetricMeans(tokens, items, starts, metric); }
    forall i | 0 <= i < |tokens| && !IsValue(tokens, i) ensures ItemAt(tokens, i) in items {
      var a :| 0 <= a < |starts| && starts[a] == i;
      assert items[a] in items;
    }
    PositionsMean(tokens, items, starts);
  }

  lemma PositionsMean(tokens: seq<Token>, items: seq<Item>, starts: seq<nat>)
    requires AreItems(tokens, items, starts)
    ensures (forall item :: item in items ==> IsReadable(item)) <==>
            forall i :: 0 <= i < |tokens| ==> !IsUnreadable(tokens, i)
    ensures Flag in items <==> exists i :: 0 <= i < |tokens| && IsFlag(tokens, i)
  {
    forall item | item in items
      ensures exists i :: 0 <= i < |tokens| && !IsValue(tokens, i) && ItemAt(tokens, i) == item
    {
      var a :| 0 <= a < |items| && items[a] == item;
      assert starts[a] in starts;
    }
    forall i | 0 <= i < |tokens| && !IsValue(tokens, i)
      ensures ItemAt(tokens, i) in items
      ensures IsReadable(ItemAt(tokens, i)) <==> !IsUnreadable(tokens, i)
      ensures ItemAt(tokens, i) == Flag <==> IsFlag(tokens, i)
    {
      var a :| 0 <= a < |starts| && starts[a] == i;
      assert items[a] in items;
      ItemMeans(tokens, i);
    }
  }

  // ----- Entries -----

  /** The words below a row: those of the next line, unless it is empty or a row. */
  function WordsBelow(lines: seq<Line>, i: nat): seq<Token> {
    if i + 1 < |lines| && lines[i + 1].Text? then lines[i + 1].tokens else []
  }

  predicate HasEnds(l: Line, key: Key) {
    && l.Socket? && l.row.localAddress == key.localAddress && l.row.localPort == key.localPort
    && l.row.peerAddress == key.peerAddress && l.row.peerPort == key.peerPort
  }

  /** An entry is the last row between its two ends, with the words below it for TCP. */
  ghost predicate IsEntry(proto: Protocol, lines: seq<Line>, key: Key, snapshot: Snapshot) {
    exists i :: 0 <= i < |lines| && HasEnds(lines[i], key) && snapshot.row == lines[i].row &&
                (if proto.Tcp? then snapshot.TcpSnapshot? && IsDetail(WordsBelow(lines, i), Success(snapshot.detail))
                 else snapshot.UdpSnapshot?) &&
                forall j :: i < j < |lines| ==> !HasEnds(lines[j], key)
  }

  lemma EntryMeans(proto: Protocol, port: string, lines: seq<Line>, key: Key, snapshot: Snapshot)
    requires IsFromRow(proto, port, lines, |lines|, key, snapshot)
    ensures key.localPort == port && IsEntry(proto, lines, key, snapshot)
  {
    var i :| 0 <= i < |lines| && IsRowOf(port, key, lines[i]) &&
      SnapshotOf(proto, lines[i].row, Below(lines, i)) == Success(snapshot) &&
      forall j :: i < j < |lines| ==> !IsRowOf(port, key, lines[j]);
    DetailMeans(WordsBelow(lines, i));
    assert HasEnds(lines[i], key);
    forall j | i < j < |lines| ensures !HasEnds(lines[j], key) {
      assert !IsRowOf(port, key, lines[j]);
    }
  }

  /** A scan that succeeds has an entry for exactly the ends of the rows of its local port, and each
      is the last such row with the details right below it. */
  lemma ScanMeans(proto: Protocol, port: string, lines: seq<Line>)
    requires Scan(proto, port, lines).Success?
    ensures var table := Scan(proto, port, lines).value;
      && (forall key: Key :: key in table <==>
          key.localPort == port && exists i :: 0 <= i < |lines| && HasEnds(lines[i], key))
      && (forall key :: key in table ==> IsEntry(proto, lines, key, table[key]))
  {
    var table := Scan(proto, port, lines).value;
    ScannedRows(proto, port, lines, |lines|);
    forall key | key in table ensures key.localPort == port && IsEntry(proto, lines, key, table[key]) {
      EntryMeans(proto, port, lines, key, table[key]);
    }
    forall key: Key | key.localPort == port && exists i :: 0 <= i < |lines| && HasEnds(lines[i], key)
      ensures key in table
    {
      var i :| 0 <= i < |lines| && HasEnds(lines[i], key);
      assert KeyOf(lines[i].row) == key;
    }
  }
}
