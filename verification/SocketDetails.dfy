/** The details of a TCP socket: flags, rates, settings and the name of the congestion control. */
module SocketDetails {
  import opened Wrappers

  /** A word of a detail line. What it says depends on the word before: by its own form, or as
      the value of a rate; a word that is not a rate has none. */
  datatype Token = Token(form: Form, rate: Option<int>)

  /** A setting whose values cannot be read has none. */
  datatype Form =
    | AppLimited
    | RateName(metric: string, text: string)
    | Setting(values: Option<map<string, int>>)
    | Word(text: string)

  datatype Detail = Detail(congestionAlgorithm: string, appLimited: bool, metrics: map<string, int>)

  datatype DetailError = Unreadable

  // ----- What a detail line says -----

  /** A line is a sequence of items of one word or, for rates, of two. */
  datatype Item = Flag | Values(values: Option<map<string, int>>) | Name(text: string)

  function RateValues(metric: string, rate: Option<int>): Option<map<string, int>> {
    if rate.Some? then Some(map[metric := rate.value]) else None
  }

  function Items(tokens: seq<Token>): seq<Item>
    decreases |tokens|
  {
    if tokens == [] then []
    else
      match tokens[0].form
      case AppLimited => [Flag] + Items(tokens[1..])
      case RateName(metric, text) =>
        if |tokens| == 1 then [Name(text)]
        else [Values(RateValues(metric, tokens[1].rate))] + Items(tokens[2..])
      case Setting(values) => [Values(values)] + Items(tokens[1..])
      case Word(text) => [Name(text)] + Items(tokens[1..])
  }

  predicate IsReadable(item: Item) {
    item.Values? ==> item.values.Some?
  }

  function ValuesOf(item: Item): map<string, int> {
    if item.Values? && item.values.Some? then item.values.value else map[]
  }

  function Metrics(items: seq<Item>): map<string, int> {
    if items == [] then map[] else Metrics(items[..|items| - 1]) + ValuesOf(items[|items| - 1])
  }

  /** The first name that is not empty. */
  function FirstName(items: seq<Item>): string {
    if items == [] then ""
    else
      var name := FirstName(items[..|items| - 1]);
      var last := items[|items| - 1];
      if name == "" && last.Name? then last.text else name
  }

  function DetailOf(tokens: seq<Token>): Result<Detail, DetailError> {
    var items := Items(tokens);
    if forall item :: item in items ==> IsReadable(item)
    then Success(Detail(FirstName(items), Flag in items, Metrics(items)))
    else Failure(Unreadable)
  }

  // ----- Parsing -----

  /** What the words before the index say. */
  ghost predicate IsParsed(tokens: seq<Token>, index: nat, done: seq<Item>, d: Detail) {
    && index <= |tokens|
    && Items(tokens) == done + Items(tokens[index..])
    && (forall item :: item in done ==> IsReadable(item))
    && d == Detail(FirstName(done), Flag in done, Metrics(done))
  }

  function DetailThen(d: Detail, item: Item): Detail {
    match item
    case Flag => d.(appLimited := true)
    case Values(_) => d.(metrics := d.metrics + ValuesOf(item))
    case Name(text) => if d.congestionAlgorithm == "" then d.(congestionAlgorithm := text) else d
  }

  /** The item a line starts with, and how many words it takes. */
  ghost predicate IsNext(rest: seq<Token>, item: Item, length: nat) {
    length <= |rest| && Items(rest) == [item] + Items(rest[length..])
  }

  lemma ParsedNext(tokens: seq<Token>, index: nat, done: seq<Item>, d: Detail, item: Item, length: nat)
    requires IsParsed(tokens, index, done, d) && IsNext(tokens[index..], item, length) && IsReadable(item)
    ensures IsParsed(tokens, index + length, done + [item], DetailThen(d, item))
  {
  }

  lemma ParsingFails(tokens: seq<Token>, index: nat, done: seq<Item>, d: Detail, item: Item, length: nat)
    requires IsParsed(tokens, index, done, d) && IsNext(tokens[index..], item, length) && !IsReadable(item)
    ensures DetailOf(tokens) == Failure(Unreadable)
  {
  }

  lemma ParsingEnds(tokens: seq<Token>, done: seq<Item>, d: Detail)
    requires IsParsed(tokens, |tokens|, done, d)
    ensures DetailOf(tokens) == Success(d)
  {
    assert Items(tokens) == done;
  }

  method ParseTcpDetailLine(tokens: seq<Token>) returns (r: Result<Detail, DetailError>)
    ensures r == DetailOf(tokens)
  {
    var congestionAlgorithm, appLimited := "", false;
    var metrics: map<string, int> := map[];
    var index := 0;
    ghost var done := [];
    assert tokens[0..] == tokens;
    while index < |tokens|
      invariant IsParsed(tokens, index, done, Detail(congestionAlgorithm, appLimited, metrics))
      decreases |tokens| - index
    {
      ghost var d := Detail(congestionAlgorithm, appLimited, metrics);
      var token := tokens[index];
      var item, length := Flag, 1;
      if token.form.AppLimited? {
        appLimited := true;
      } else if token.form.RateName? && index + 1 < |tokens| {
        var rate := tokens[index + 1].rate;
        item, length := Values(RateValues(token.form.metric, rate)), 2;
        metrics := metrics + ValuesOf(item);
      } else if token.form.Setting? {
        item := Values(token.form.values);
        metrics := metrics + ValuesOf(item);
      } else {
        item := Name(token.form.text);
        if congestionAlgorithm == "" { congestionAlgorithm := token.form.text; }
      }
      NextItem(tokens[index..], item, length);
      if !IsReadable(item) {
        ParsingFails(tokens, index, done, d, item, length);
        return Failure(Unreadable);
      }
      ParsedNext(tokens, index, done, d, item, length);
      index, done := index + length, done + [item];
    }
    ParsingEnds(tokens, done, Detail(congestionAlgorithm, appLimited, metrics));
    return Success(Detail(congestionAlgorithm, appLimited, metrics));
  }

  lemma NextItem(rest: seq<Token>, item: Item, length: nat)
    requires rest != []
    requires match rest[0].form
             case AppLimited => item == Flag && length == 1
             case RateName(metric, text) =>
               if |rest| == 1 then item == Name(text) && length == 1
               else item == Values(RateValues(metric, rest[1].rate)) && length == 2
             case Setting(values) => item == Values(values) && length == 1
             case Word(text) => item == Name(text) && length == 1
    ensures IsNext(rest, item, length)
  {
  }

  // ----- What the parts mean -----

  /** The last item that gives a metric gives its value, and only what is given is there. */
  lemma {:induction false} LastValueWins(items: seq<Item>, metric: string)
    ensures metric !in Metrics(items) ==> forall item :: item in items ==> metric !in ValuesOf(item)
    ensures metric in Metrics(items) ==>
      exists i :: 0 <= i < |items| && metric in ValuesOf(items[i]) &&
          ValuesOf(items[i])[metric] == Metrics(items)[metric] &&
                  forall j :: i < j < |items| ==> metric !in ValuesOf(items[j])
  {
    if items != [] {
      LastValueWins(items[..|items| - 1], metric);
    }
  }

  /** The name is that of the first item that names something. */
  lemma {:induction false} FirstNameWins(items: seq<Item>)
    ensures FirstName(items) == "" ==> forall item :: item in items && item.Name? ==> item.text == ""
    ensures FirstName(items) != "" ==>
      exists i :: 0 <= i < |items| && items[i] == Name(FirstName(items)) &&
                  forall j :: 0 <= j < i && items[j].Name? ==> items[j].text == ""
  {
    if items != [] {
      FirstNameWins(items[..|items| - 1]);
    }
  }
}
