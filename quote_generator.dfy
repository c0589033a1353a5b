/** `QuoteGenerator`: the quotes file parsed into categories of quotes, and
    the queries over them. The loaded dictionary never changes after
    construction, so it is a value here: an ordered list of categories with
    their quotes, in the order the dictionary keeps them. The file is given
    as its lines (None when it does not exist); `random.choice` is a
    nondeterministic choice. */
module QuoteGenerator {
  import opened Base
  import opened Text

  datatype Category = Category(name: string, quotes: seq<string>)

  /** The state of the line loop in `_load_quotes`. */
  datatype Parse = Parse(cats: seq<Category>, current: Option<string>)

  const Initial := Parse([], None)

  const DefaultQuote := "Kombucha: Nature's probiotic powerhouse."

  // ---------------------------------------------------------------------------
  // The dictionary

  function Names(cats: seq<Category>): (r: seq<string>)
    ensures |r| == |cats| && forall k :: 0 <= k < |cats| ==> r[k] == cats[k].name
  {
    if cats == [] then [] else [cats[0].name] + Names(cats[1..])
  }

  predicate DistinctNames(cats: seq<Category>)
  {
    forall i, j :: 0 <= i < j < |cats| ==> cats[i].name != cats[j].name
  }

  /** `self.quotes.get(name)` */
  function Lookup(cats: seq<Category>, name: string): (r: Option<seq<string>>)
    ensures r.None? <==> name !in Names(cats)
    ensures r.Some? ==> exists k :: 0 <= k < |cats| && cats[k].name == name && cats[k].quotes == r.value
  {
    if cats == [] then None
    else if cats[0].name == name then Some(cats[0].quotes)
    else Lookup(cats[1..], name)
  }

  /** With distinct names, the lookup finds the one category of that name. */
  lemma {:induction false} LookupAt(cats: seq<Category>, k: nat)
    requires DistinctNames(cats) && k < |cats|
    ensures Lookup(cats, cats[k].name) == Some(cats[k].quotes)
  {
    if k > 0 {
      assert cats[0].name != cats[k].name;
      assert cats[1..][k - 1] == cats[k];
      LookupAt(cats[1..], k - 1);
    }
  }

  /** `quotes[name].append(q)`: the quote is added at the end of the first
      category of that name. */
  function AddQuote(cats: seq<Category>, name: string, q: string): (r: seq<Category>)
    ensures Names(r) == Names(cats)
  {
    if cats == [] then []
    else if cats[0].name == name then [Category(name, cats[0].quotes + [q])] + cats[1..]
    else [cats[0]] + AddQuote(cats[1..], name, q)
  }

  /** Appending to one category leaves every other category as it was. */
  lemma {:induction false} AddQuoteLookup(cats: seq<Category>, name: string, q: string, other: string)
    requires name in Names(cats)
    ensures Lookup(AddQuote(cats, name, q), other) ==
              if other == name then Some(Lookup(cats, name).value + [q]) else Lookup(cats, other)
  {
    if cats[0].name != name {
      assert name in Names(cats[1..]) by {
        var k :| 0 <= k < |cats| && Names(cats)[k] == name;
        assert Names(cats[1..])[k - 1] == name;
      }
      AddQuoteLookup(cats[1..], name, q, other);
    }
  }

  // ---------------------------------------------------------------------------
  // Parsing

  /** `line.strip('"').strip("'")` */
  function Unquote(line: string): string
  {
    Trim(Trim(line, {'"'}), {'\''})
  }

  predicate IsHeader(line: string)
  {
    StartsWith(line, "##") && !StartsWith(line, "###")
  }

  /** `line.replace('##', '').strip()` */
  function HeaderName(line: string): string
  {
    Strip(RemoveAll(line, "##"))
  }

  /** One turn of the loop in `_load_quotes`. A header opens its category,
      creating it if new; comment and rule lines are skipped; any other line
      is a quote of the current category when there is one with a non-empty
      name. */
  function Step(st: Parse, raw: string): Parse
  {
    var line := Strip(raw);
    if line == "" then st
    else if IsHeader(line) then
      var name := HeaderName(line);
      Parse(if name in Names(st.cats) then st.cats else st.cats + [Category(name, [])], Some(name))
    else if StartsWith(line, "#") || StartsWith(line, "---") then st
    else if st.current.Some? && st.current.value != "" then
      var q := Unquote(line);
      if |q| > 10 then Parse(AddQuote(st.cats, st.current.value, q), st.current) else st
    else st
  }

  /** The state after the given lines. */
  function Run(st: Parse, lines: seq<string>): Parse
  {
    if lines == [] then st else Step(Run(st, lines[..|lines| - 1]), lines[|lines| - 1])
  }

  /** `_load_quotes`: no categories when the file is missing. */
  function Load(file: Option<seq<string>>): seq<Category>
  {
    if file.None? then [] else Run(Initial, file.value).cats
  }

  /** A stored quote: longer than 10 characters, with no `'` at either end. */
  predicate GoodQuote(q: string)
  {
    |q| > 10 && q[0] != '\'' && q[|q| - 1] != '\''
  }

  predicate AllGood(cats: seq<Category>)
  {
    forall k, j :: 0 <= k < |cats| && 0 <= j < |cats[k].quotes| ==> GoodQuote(cats[k].quotes[j])
  }

  /** What the loop keeps true: category names are distinct, the current
      category is one of them, and every stored quote is a good one. */
  predicate Valid(st: Parse)
  {
    DistinctNames(st.cats) && (st.current.Some? ==> st.current.value in Names(st.cats)) && AllGood(st.cats)
  }

  lemma UnquoteGood(line: string)
    requires |Unquote(line)| > 10
    ensures GoodQuote(Unquote(line))
  {
    var t := TrimLeft(Trim(line, {'"'}), {'\''});
    TrimRightPrefix(t, {'\''});
  }

  lemma {:induction false} AddQuoteGood(cats: seq<Category>, name: string, q: string)
    requires AllGood(cats) && GoodQuote(q)
    ensures AllGood(AddQuote(cats, name, q))
  {
    if cats != [] && cats[0].name != name {
      AddQuoteGood(cats[1..], name, q);
      var r := AddQuote(cats, name, q);
      assert r == [cats[0]] + AddQuote(cats[1..], name, q);
      forall k, j | 0 <= k < |r| && 0 <= j < |r[k].quotes| ensures GoodQuote(r[k].quotes[j]) {
        if k > 0 {
          assert r[k] == AddQuote(cats[1..], name, q)[k - 1];
        }
      }
    }
  }

  lemma DistinctAfterAdd(cats: seq<Category>, name: string, q: string)
    requires DistinctNames(cats)
    ensures DistinctNames(AddQuote(cats, name, q))
  {
    var r := AddQuote(cats, name, q);
    forall i, j | 0 <= i < j < |r| ensures r[i].name != r[j].name {
      assert Names(r)[i] == Names(cats)[i] && Names(r)[j] == Names(cats)[j];
    }
  }

  lemma StepValid(st: Parse, raw: string)
    requires Valid(st)
    ensures Valid(Step(st, raw))
  {
    var line := Strip(raw);
    if line != "" && IsHeader(line) {
      var name := HeaderName(line);
      if name !in Names(st.cats) {
        var cats := st.cats + [Category(name, [])];
        assert Names(cats) == Names(st.cats) + [name];
        forall i, j | 0 <= i < j < |cats| ensures cats[i].name != cats[j].name {
          if j == |st.cats| {
            assert Names(st.cats)[i] == cats[i].name;
          }
        }
        assert st.current.Some? ==> st.current.value in Names(cats);
      }
    } else if line != "" && !StartsWith(line, "#") && !StartsWith(line, "---") &&
              st.current.Some? && st.current.value != "" {
      var q := Unquote(line);
      if |q| > 10 {
        UnquoteGood(line);
        AddQuoteGood(st.cats, st.current.value, q);
        DistinctAfterAdd(st.cats, st.current.value, q);
      }
    }
  }

  lemma {:induction false} RunValid(st: Parse, lines: seq<string>)
    requires Valid(st)
    ensures Valid(Run(st, lines))
  {
    if lines != [] {
      RunValid(st, lines[..|lines| - 1]);
      StepValid(Run(st, lines[..|lines| - 1]), lines[|lines| - 1]);
    }
  }

  /** The loaded categories have distinct names, and every quote in them is
      longer than 10 characters with its quote marks stripped. */
  lemma LoadValid(file: Option<seq<string>>)
    ensures DistinctNames(Load(file)) && AllGood(Load(file))
  {
    if file.Some? {
      RunValid(Initial, file.value);
    }
  }

  lemma {:induction false} RunAppend(st: Parse, a: seq<string>, b: seq<string>)
    ensures Run(st, a + b) == Run(Run(st, a), b)
  {
    if b == [] {
      assert a + b == a;
    } else {
      assert (a + b)[..|a + b| - 1] == a + b[..|b| - 1];
      RunAppend(st, a, b[..|b| - 1]);
    }
  }

  /** The lines before the first header contribute nothing: no quote is kept
      before a category is open. */
  lemma {:induction false} PreambleDropped(pre: seq<string>, body: seq<string>)
    requires forall k :: 0 <= k < |pre| ==> !IsHeader(Strip(pre[k]))
    ensures Load(Some(pre + body)) == Load(Some(body))
  {
    PreambleIdle(pre);
    RunAppend(Initial, pre, body);
  }

  lemma {:induction false} PreambleIdle(pre: seq<string>)
    requires forall k :: 0 <= k < |pre| ==> !IsHeader(Strip(pre[k]))
    ensures Run(Initial, pre) == Initial
  {
    if pre != [] {
      PreambleIdle(pre[..|pre| - 1]);
    }
  }

  /** `before` grows into `after`: no category disappears or moves, and each
      keeps its quotes as a prefix of its new ones. */
  predicate Extends(before: seq<Category>, after: seq<Category>)
  {
    |before| <= |after| &&
    forall k :: 0 <= k < |before| ==> after[k].name == before[k].name && before[k].quotes <= after[k].quotes
  }

  lemma {:induction false} AddQuoteExtends(cats: seq<Category>, name: string, q: string)
    ensures Extends(cats, AddQuote(cats, name, q))
  {
    if cats != [] && cats[0].name != name {
      AddQuoteExtends(cats[1..], name, q);
      var r := AddQuote(cats, name, q);
      assert r == [cats[0]] + AddQuote(cats[1..], name, q);
      forall k | 0 <= k < |cats| ensures r[k].name == cats[k].name && cats[k].quotes <= r[k].quotes {
        if k > 0 {
          assert r[k] == AddQuote(cats[1..], name, q)[k - 1];
        }
      }
    }
  }

  /** Reading more lines never loses a category or a quote: a header that
      reopens a category keeps the quotes it already has. */
  lemma {:induction false} RunExtends(st: Parse, lines: seq<string>)
    ensures Extends(st.cats, Run(st, lines).cats)
  {
    if lines != [] {
      var mid := Run(st, lines[..|lines| - 1]);
      RunExtends(st, lines[..|lines| - 1]);
      var line := Strip(lines[|lines| - 1]);
      if line != "" && !IsHeader(line) && !StartsWith(line, "#") && !StartsWith(line, "---") &&
         mid.current.Some? && mid.current.value != "" {
        AddQuoteExtends(mid.cats, mid.current.value, Unquote(line));
      }
    }
  }

  /** Blank lines, comment lines other than '##' headers, and '---' rules
      leave the parse state as it was. */
  lemma SkippedLinesKeepState(st: Parse, raw: string)
    requires var line := Strip(raw);
             line == "" || (!IsHeader(line) && (StartsWith(line, "#") || StartsWith(line, "---")))
    ensures Step(st, raw) == st
  {
  }

  /** A header line makes its category current; it exists afterwards and
      its quotes are those it had before (none if it is new). */
  lemma HeaderOpens(st: Parse, raw: string)
    requires IsHeader(Strip(raw))
    ensures var name := HeaderName(Strip(raw));
            var after := Step(st, raw);
            after.current == Some(name) &&
            Lookup(after.cats, name) == (if name in Names(st.cats) then Lookup(st.cats, name) else Some([]))
  {
    var name := HeaderName(Strip(raw));
    if name !in Names(st.cats) {
      LookupAppendNew(st.cats, name);
    }
  }

  lemma {:induction false} LookupAppendNew(cats: seq<Category>, name: string)
    requires name !in Names(cats)
    ensures Lookup(cats + [Category(name, [])], name) == Some([])
  {
    if cats != [] {
      assert (cats + [Category(name, [])])[1..] == cats[1..] + [Category(name, [])];
      assert Names(cats) == [cats[0].name] + Names(cats[1..]);
      LookupAppendNew(cats[1..], name);
    }
  }

  /** A quote line under an open category with a name is added, quote marks
      stripped, to the end of that category alone, when it is long enough. */
  lemma QuoteAppended(st: Parse, raw: string, other: string)
    requires Valid(st)
    requires var line := Strip(raw);
             line != "" && !StartsWith(line, "#") && !StartsWith(line, "---")
    requires st.current.Some? && st.current.value != ""
    ensures var q := Unquote(Strip(raw));
            var after := Step(st, raw);
            Lookup(after.cats, other) ==
              if |q| > 10 && other == st.current.value then Some(Lookup(st.cats, other).value + [q])
              else Lookup(st.cats, other)
  {
    var q := Unquote(Strip(raw));
    if |q| > 10 {
      AddQuoteLookup(st.cats, st.current.value, q, other);
    }
  }

  /** `_load_quotes`, as the line loop of the source. */
  method LoadQuotes(file: Option<seq<string>>) returns (quotes: seq<Category>)
    ensures quotes == Load(file)
  {
    if file.None? {
      return [];
    }
    var lines := file.value;
    quotes := [];
    var current: Option<string> := None;
    var i := 0;
    while i < |lines|
      invariant 0 <= i <= |lines|
      invariant Parse(quotes, current) == Run(Initial, lines[..i])
    {
      assert lines[..i + 1][..i] == lines[..i];
      var line := Strip(lines[i]);
      if line == "" {
      } else if StartsWith(line, "##") && !StartsWith(line, "###") {
        current := Some(HeaderName(line));
        if current.value !in Names(quotes) {
          quotes := quotes + [Category(current.value, [])];
        }
      } else if StartsWith(line, "#") || StartsWith(line, "---") {
      } else if current.Some? && current.value != "" {
        var quote := Unquote(line);
        if |quote| > 10 {
          quotes := AddQuote(quotes, current.value, quote);
        }
      }
      i := i + 1;
    }
    assert lines[..i] == lines;
  }

  // ---------------------------------------------------------------------------
  // Queries

  /** `get_quotes_by_category`: the category's quotes, or [] for an unknown
      category. */
  function QuotesByCategory(cats: seq<Category>, name: string): (r: seq<string>)
    ensures name !in Names(cats) ==> r == []
    ensures name in Names(cats) ==> exists k :: 0 <= k < |cats| && cats[k].name == name && r == cats[k].quotes
  {
    if name in Names(cats) then Lookup(cats, name).value else []
  }

  /** With distinct names, the quotes of a category are found whichever
      position it has. */
  lemma QuotesByCategoryAt(cats: seq<Category>, k: nat)
    requires DistinctNames(cats) && k < |cats|
    ensures QuotesByCategory(cats, cats[k].name) == cats[k].quotes
  {
    LookupAt(cats, k);
  }

  /** `get_all_categories`: the names in dictionary order. */
  function AllCategories(cats: seq<Category>): (r: seq<string>)
    ensures |r| == |cats| && forall k :: 0 <= k < |cats| ==> r[k] == cats[k].name
  {
    Names(cats)
  }

  /** On the loaded quotes, every listed category is found, exactly once,
      and any other name gives no quotes. */
  lemma CategoriesLookup(file: Option<seq<string>>, name: string)
    ensures var cats := Load(file);
            (name in AllCategories(cats) ==> Lookup(cats, name).Some? && QuotesByCategory(cats, name) == Lookup(cats, name).value) &&
            (name !in AllCategories(cats) ==> QuotesByCategory(cats, name) == []) &&
            (forall i, j :: 0 <= i < j < |AllCategories(cats)| ==> AllCategories(cats)[i] != AllCategories(cats)[j])
  {
    LoadValid(file);
  }

  /** Every quote of every category, in dictionary order and then file
      order. */
  function AllQuotes(cats: seq<Category>): (r: seq<string>)
    ensures forall k, j :: 0 <= k < |cats| && 0 <= j < |cats[k].quotes| ==> cats[k].quotes[j] in r
    ensures forall q :: q in r ==> exists k :: 0 <= k < |cats| && q in cats[k].quotes
  {
    if cats == [] then []
    else
      var rest := AllQuotes(cats[..|cats| - 1]);
      assert forall k :: 0 <= k < |cats| - 1 ==> cats[..|cats| - 1][k] == cats[k];
      rest + cats[|cats| - 1].quotes
  }

  /** The list `get_random_quote` draws from: the named category when the
      name is non-empty and known, otherwise all quotes. */
  function Pool(cats: seq<Category>, category: Option<string>): seq<string>
  {
    if category.Some? && category.value != "" && category.value in Names(cats)
    then QuotesByCategory(cats, category.value)
    else AllQuotes(cats)
  }

  /** `get_random_quote`: a member of the pool, or the fixed default when
      the pool is empty. */
  method RandomQuote(cats: seq<Category>, category: Option<string>) returns (q: string)
    ensures Pool(cats, category) == [] ==> q == DefaultQuote
    ensures Pool(cats, category) != [] ==> q in Pool(cats, category)
    ensures AllGood(cats) ==> |q| > 10
  {
    var pool: seq<string>;
    if category.Some? && category.value != "" && category.value in Names(cats) {
      pool := QuotesByCategory(cats, category.value);
    } else {
      pool := AllQuotes(cats);
    }
    if pool == [] {
      return DefaultQuote;
    }
    assert pool[0] in pool;
    q :| q in pool;
    assert AllGood(cats) ==> |q| > 10 by {
      if AllGood(cats) {
        var k :| 0 <= k < |cats| && q in cats[k].quotes;
      }
    }
  }

  /** The quotes that contain the keyword, ignoring ASCII case. */
  function Matching(quotes: seq<string>, keyword: string): (r: seq<string>)
    ensures forall q :: q in r <==> q in quotes && Contains(Lower(q), Lower(keyword))
  {
    if quotes == [] then []
    else
      var rest := Matching(quotes[..|quotes| - 1], keyword);
      var q := quotes[|quotes| - 1];
      assert quotes == quotes[..|quotes| - 1] + [q];
      if Contains(Lower(q), Lower(keyword)) then rest + [q] else rest
  }

  /** Matching keeps order: the matches of a concatenation are the matches
      of its parts, one after the other. */
  lemma {:induction false} MatchingAppend(a: seq<string>, b: seq<string>, keyword: string)
    ensures Matching(a + b, keyword) == Matching(a, keyword) + Matching(b, keyword)
  {
    if b == [] {
      assert a + b == a;
    } else {
      assert (a + b)[..|a + b| - 1] == a + b[..|b| - 1];
      MatchingAppend(a, b[..|b| - 1], keyword);
    }
  }

  /** The inner loop of `search_quotes`: the matching quotes of one category. */
  method MatchingIn(quotes: seq<string>, key: string, ghost keyword: string) returns (found: seq<string>)
    requires key == Lower(keyword)
    ensures found == Matching(quotes, keyword)
  {
    found := [];
    for j := 0 to |quotes|
      invariant found == Matching(quotes[..j], keyword)
    {
      assert quotes[..j + 1][..j] == quotes[..j];
      if Contains(Lower(quotes[j]), key) {
        found := found + [quotes[j]];
      }
    }
    assert quotes[..|quotes|] == quotes;
  }

  /** `search_quotes`, with its two nested loops. */
  method SearchQuotes(cats: seq<Category>, keyword: string) returns (found: seq<string>)
    ensures found == Matching(AllQuotes(cats), keyword)
    ensures forall q :: q in found <==> q in AllQuotes(cats) && Contains(Lower(q), Lower(keyword))
  {
    var key := Lower(keyword);
    found := [];
    for i := 0 to |cats|
      invariant found == Matching(AllQuotes(cats[..i]), keyword)
    {
      var matches := MatchingIn(cats[i].quotes, key, keyword);
      assert cats[..i + 1][..i] == cats[..i];
      MatchingAppend(AllQuotes(cats[..i]), cats[i].quotes, keyword);
      found := found + matches;
    }
    assert cats[..|cats|] == cats;
  }
}
