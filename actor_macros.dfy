/** The hand-written attribute parsing of the actor macros
    (digitaltwin-macros/src/lib.rs): `extract_handler_maps` reads the
    `#[dispatch_map("Key" = handler)]` / `#[command_map(...)]` attributes of an
    impl block from their token text, `extract_slots_from_attr_args` and
    `extract_default_state_from_attr_args` read `#[actor(...)]` arguments.
    Token generation itself is not modelled. */
module ActorMacros {
  import opened Wrappers

  // ---------------------------------------------------------------------------
  // Text helpers: str::find and str::trim

  /** `s[from..].find(c)`, as an absolute position; |s| when `c` does not occur. */
  function IndexOf(s: string, c: char, from: nat): (k: nat)
    requires from <= |s|
    ensures from <= k <= |s|
    ensures c !in s[from..k]
    ensures k < |s| ==> s[k] == c
    decreases |s| - from
  {
    if from == |s| then from
    else if s[from] == c then from
    else
      var k := IndexOf(s, c, from + 1);
      assert s[from..k] == [s[from]] + s[from + 1..k];
      k
  }

  /** A position holding `c` with no `c` between `from` and it is the one IndexOf finds. */
  lemma IndexOfUnique(s: string, c: char, from: nat, k: nat)
    requires from <= k < |s| && s[k] == c && c !in s[from..k]
    ensures IndexOf(s, c, from) == k
  {
  }

  /** Unicode White_Space, the set `char::is_whitespace` (and so `str::trim`) uses. */
  predicate IsWhitespace(c: char)
  {
    || ('\t' <= c <= '\r') || c == ' ' || c == '\U{0085}' || c == '\U{00A0}' || c == '\U{1680}'
    || ('\U{2000}' <= c <= '\U{200A}') || c == '\U{2028}' || c == '\U{2029}' || c == '\U{202F}'
    || c == '\U{205F}' || c == '\U{3000}'
  }

  function TrimStart(s: string): string
  {
    if s != [] && IsWhitespace(s[0]) then TrimStart(s[1..]) else s
  }

  function TrimEnd(s: string): string
  {
    if s != [] && IsWhitespace(s[|s| - 1]) then TrimEnd(s[..|s| - 1]) else s
  }

  function Trim(s: string): string
  {
    TrimEnd(TrimStart(s))
  }

  /** No whitespace at either end. */
  predicate Trimmed(t: string)
  {
    t == [] || (!IsWhitespace(t[0]) && !IsWhitespace(t[|t| - 1]))
  }

  ghost predicate AllWhitespace(s: string)
  {
    forall i :: 0 <= i < |s| ==> IsWhitespace(s[i])
  }

  lemma TrimStartSpec(s: string)
    ensures exists a :: 0 <= a <= |s| && TrimStart(s) == s[a..] && AllWhitespace(s[..a])
    ensures TrimStart(s) == [] || !IsWhitespace(TrimStart(s)[0])
  {
    TrimStartDropsWhitespace(s);
    TrimStartStopsAtText(s);
  }

  lemma {:induction false} TrimStartDropsWhitespace(s: string)
    ensures exists a :: 0 <= a <= |s| && TrimStart(s) == s[a..] && AllWhitespace(s[..a])
  {
    if s != [] && IsWhitespace(s[0]) {
      TrimStartDropsWhitespace(s[1..]);
      var a :| 0 <= a <= |s[1..]| && TrimStart(s[1..]) == s[1..][a..] && AllWhitespace(s[1..][..a]);
      assert TrimStart(s) == s[a + 1..];
      var lead := s[..a + 1];
      assert AllWhitespace(lead) by {
        forall i | 0 <= i < |lead| ensures IsWhitespace(lead[i]) {
          if i > 0 { assert lead[i] == s[1..][..a][i - 1]; }
        }
      }
    } else {
      assert TrimStart(s) == s[0..] && AllWhitespace(s[..0]);
    }
  }

  lemma {:induction false} TrimStartStopsAtText(s: string)
    ensures TrimStart(s) == [] || !IsWhitespace(TrimStart(s)[0])
  {
    if s != [] && IsWhitespace(s[0]) {
      TrimStartStopsAtText(s[1..]);
      assert TrimStart(s) == TrimStart(s[1..]);
    }
  }

  lemma {:induction false} TrimEndSpec(s: string)
    ensures exists b :: 0 <= b <= |s| && TrimEnd(s) == s[..b] && AllWhitespace(s[b..])
    ensures TrimEnd(s) == [] || !IsWhitespace(TrimEnd(s)[|TrimEnd(s)| - 1])
    decreases |s|
  {
    if s != [] && IsWhitespace(s[|s| - 1]) {
      var front := s[..|s| - 1];
      TrimEndSpec(front);
      var b :| 0 <= b <= |front| && TrimEnd(front) == front[..b] && AllWhitespace(front[b..]);
      assert TrimEnd(s) == s[..b];
      assert AllWhitespace(s[b..]) by {
        forall i | 0 <= i < |s| - b ensures IsWhitespace(s[b..][i]) {
          if i < |s| - 1 - b { assert s[b..][i] == front[b..][i]; }
        }
      }
    } else {
      assert TrimEnd(s) == s[..|s|] && AllWhitespace(s[|s|..]);
    }
  }

  /** `str::trim` drops exactly the leading and trailing whitespace: the result is a
      slice of the input with only whitespace around it and none at its ends. */
  lemma TrimSpec(s: string)
    ensures Trimmed(Trim(s))
    ensures exists a, b :: 0 <= a <= b <= |s| && Trim(s) == s[a..b] && AllWhitespace(s[..a]) && AllWhitespace(s[b..])
  {
    TrimIsTrimmed(s);
    TrimCutsWhitespace(s);
  }

  lemma TrimIsTrimmed(s: string)
    ensures Trimmed(Trim(s))
  {
    var t := TrimStart(s);
    TrimStartSpec(s);
    TrimEndSpec(t);
    var b :| 0 <= b <= |t| && TrimEnd(t) == t[..b] && AllWhitespace(t[b..]);
    if b > 0 {
      assert Trim(s)[0] == t[0];
    }
  }

  lemma TrimCutsWhitespace(s: string)
    ensures exists a, b :: 0 <= a <= b <= |s| && Trim(s) == s[a..b] && AllWhitespace(s[..a]) && AllWhitespace(s[b..])
  {
    TrimStartSpec(s);
    var a :| 0 <= a <= |s| && TrimStart(s) == s[a..] && AllWhitespace(s[..a]);
    var t := s[a..];
    TrimEndSpec(t);
    var b :| 0 <= b <= |t| && TrimEnd(t) == t[..b] && AllWhitespace(t[b..]);
    SliceOfSuffix(s, a, b);
    assert Trim(s) == s[a..a + b];
  }

  lemma SliceOfSuffix(s: string, a: nat, b: nat)
    requires a + b <= |s|
    ensures s[a..][b..] == s[a + b..] && s[a..][..b] == s[a..a + b]
  {
  }

  /** Text already without surrounding whitespace is left as it is. */
  lemma TrimOfTrimmed(t: string)
    requires Trimmed(t)
    ensures Trim(t) == t
  {
  }

  // ---------------------------------------------------------------------------
  // extract_handler_maps

  /** An attribute of the impl block: its path (a single identifier) and its token text. */
  datatype Attribute = Attribute(path: string, tokens: string)

  /** A (key, handler name) pair, in the order the attributes list it. */
  type Entry = (string, string)

  const DispatchMapPath: string := "dispatch_map"
  const CommandMapPath: string := "command_map"

  /** The manual parse of one attribute's token text `("Key" = handler)`: the key is
      the text between the first two '"', the handler the trimmed text between the
      first '=' from the closing quote on and the next ')'. Any missing delimiter
      gives no entry. */
  function ParseHandlerAttribute(s: string): Option<Entry>
  {
    var startQuote := IndexOf(s, '"', 0);
    if startQuote == |s| then None
    else
      var endQuote := IndexOf(s, '"', startQuote + 1);
      if endQuote == |s| then None
      else
        var eq := IndexOf(s, '=', endQuote);
        if eq == |s| then None
        else
          var close := IndexOf(s, ')', eq + 1);
          if close == |s| then None
          else Some((s[startQuote + 1..endQuote], Trim(s[eq + 1..close])))
  }

  /** Positions of the four delimiters the parser looks for, each the first of its
      kind after the previous one. */
  ghost predicate Delimiters(s: string, q1: int, q2: int, e: int, p: int)
  {
    && 0 <= q1 < q2 <= e < p < |s|
    && s[q1] == '"' && s[q2] == '"' && s[e] == '=' && s[p] == ')'
    && '"' !in s[0..q1] && '"' !in s[q1 + 1..q2] && '=' !in s[q2..e] && ')' !in s[e + 1..p]
  }

  /** An entry is produced exactly when all four delimiters are present, and then the
      key is the text strictly inside the first pair of quotes and the handler the
      trimmed text between '=' and ')'. */
  lemma ParseHandlerAttributeSpec(s: string)
    ensures ParseHandlerAttribute(s).Some? <==> exists q1, q2, e, p :: Delimiters(s, q1, q2, e, p)
    ensures forall q1, q2, e, p :: Delimiters(s, q1, q2, e, p) ==>
      ParseHandlerAttribute(s) == Some((s[q1 + 1..q2], Trim(s[e + 1..p])))
  {
    ParseFindsDelimiters(s);
    forall q1, q2, e, p | Delimiters(s, q1, q2, e, p)
      ensures ParseHandlerAttribute(s) == Some((s[q1 + 1..q2], Trim(s[e + 1..p])))
    {
      ParseAtDelimiters(s, q1, q2, e, p);
    }
  }

  lemma ParseFindsDelimiters(s: string)
    ensures ParseHandlerAttribute(s).Some? ==> exists q1, q2, e, p :: Delimiters(s, q1, q2, e, p)
  {
    if ParseHandlerAttribute(s).Some? {
      var q1 := IndexOf(s, '"', 0);
      var q2 := IndexOf(s, '"', q1 + 1);
      var e := IndexOf(s, '=', q2);
      var p := IndexOf(s, ')', e + 1);
      assert Delimiters(s, q1, q2, e, p);
    }
  }

  lemma ParseAtDelimiters(s: string, q1: int, q2: int, e: int, p: int)
    requires Delimiters(s, q1, q2, e, p)
    ensures ParseHandlerAttribute(s) == Some((s[q1 + 1..q2], Trim(s[e + 1..p])))
  {
    DelimitersAreFirst(s, q1, q2, e, p);
  }

  lemma DelimitersAreFirst(s: string, q1: int, q2: int, e: int, p: int)
    requires Delimiters(s, q1, q2, e, p)
    ensures IndexOf(s, '"', 0) == q1 && IndexOf(s, '"', q1 + 1) == q2
    ensures IndexOf(s, '=', q2) == e && IndexOf(s, ')', e + 1) == p
  {
    IndexOfUnique(s, '"', 0, q1);
    IndexOfUnique(s, '"', q1 + 1, q2);
    IndexOfUnique(s, '=', q2, e);
    IndexOfUnique(s, ')', e + 1, p);
  }

  /** The token text of `#[attr("Key" = handler)]`. */
  function AttributeTokens(key: string, handler: string): string
  {
    "(\"" + key + "\" = " + handler + ")"
  }

  /** Round trip: the parser recovers the key and handler of a well-formed attribute
      (a key without '"', a handler without ')' and without surrounding whitespace). */
  lemma ParseAttributeTokens(key: string, handler: string)
    requires '"' !in key && ')' !in handler && Trimmed(handler)
    ensures ParseHandlerAttribute(AttributeTokens(key, handler)) == Some((key, handler))
  {
    var s := AttributeTokens(key, handler);
    var n := |key|;
    TokensDelimiters(key, handler);
    ParseAtDelimiters(s, 1, n + 2, n + 4, n + 6 + |handler|);
    assert s[2..n + 2] == key;
    assert s[n + 5..n + 6 + |handler|] == " " + handler;
    TrimAfterSpace(handler);
  }

  /** The single space the attribute text puts before the handler is trimmed away. */
  lemma TrimAfterSpace(handler: string)
    requires Trimmed(handler)
    ensures Trim(" " + handler) == handler
  {
    assert TrimStart(" " + handler) == TrimStart(handler) by {
      assert (" " + handler)[1..] == handler;
    }
    TrimOfTrimmed(handler);
  }

  lemma TokensDelimiters(key: string, handler: string)
    requires '"' !in key && ')' !in handler
    ensures Delimiters(AttributeTokens(key, handler), 1, |key| + 2, |key| + 4, |key| + 6 + |handler|)
  {
    var s := AttributeTokens(key, handler);
    var n := |key|;
    assert s == "(\"" + key + "\" = " + handler + ")";
    assert s[0..1] == "(";
    assert s[2..n + 2] == key;
    assert s[n + 2..n + 4] == "\" ";
    assert s[n + 6..n + 6 + |handler|] == handler;
  }

  /** Reference definition: the entries of all attributes with the given path whose
      text parses, in attribute order. */
  function HandlerEntries(attrs: seq<Attribute>, path: string): seq<Entry>
  {
    ParsedEntries(attrs, path, ParseHandlerAttribute)
  }

  /** The same walk for any parser of the token text; the lemmas about the walk
      itself are stated at this level, where the parser's own body plays no part. */
  function ParsedEntries(attrs: seq<Attribute>, path: string, parse: string -> Option<Entry>): seq<Entry>
  {
    if attrs == [] then []
    else
      var last := attrs[|attrs| - 1];
      ParsedEntries(attrs[..|attrs| - 1], path, parse)
        + (if last.path == path && parse(last.tokens).Some? then [parse(last.tokens).value] else [])
  }

  method ExtractHandlerMaps(attrs: seq<Attribute>) returns (dispatchEntries: seq<Entry>, commandEntries: seq<Entry>)
    ensures dispatchEntries == HandlerEntries(attrs, DispatchMapPath)
    ensures commandEntries == HandlerEntries(attrs, CommandMapPath)
  {
    dispatchEntries, commandEntries := [], [];
    for i := 0 to |attrs|
      invariant dispatchEntries == HandlerEntries(attrs[..i], DispatchMapPath)
      invariant commandEntries == HandlerEntries(attrs[..i], CommandMapPath)
    {
      var attr := attrs[i];
      assert attrs[..i + 1][..i] == attrs[..i];
      if attr.path == DispatchMapPath || attr.path == CommandMapPath {
        var isDispatch := attr.path == DispatchMapPath;
        match ParseHandlerAttribute(attr.tokens) {
          case Some(entry) =>
            if isDispatch {
              dispatchEntries := dispatchEntries + [entry];
            } else {
              commandEntries := commandEntries + [entry];
            }
          case None =>
        }
      }
    }
    assert attrs[..|attrs|] == attrs;
  }

  /** An entry is listed exactly when some attribute with that path parses to it. */
  lemma HandlerEntriesMembership(attrs: seq<Attribute>, path: string, entry: Entry)
    ensures entry in HandlerEntries(attrs, path) <==>
      exists i :: 0 <= i < |attrs| && attrs[i].path == path && ParseHandlerAttribute(attrs[i].tokens) == Some(entry)
  {
    ParsedEntriesMembership(attrs, path, entry, ParseHandlerAttribute);
  }

  lemma {:induction false} ParsedEntriesMembership(attrs: seq<Attribute>, path: string, entry: Entry, parse: string -> Option<Entry>)
    ensures entry in ParsedEntries(attrs, path, parse) <==>
      exists i :: 0 <= i < |attrs| && attrs[i].path == path && parse(attrs[i].tokens) == Some(entry)
  {
    if attrs != [] {
      var n := |attrs| - 1;
      ParsedEntriesMembership(attrs[..n], path, entry, parse);
      if exists i :: 0 <= i < |attrs| && attrs[i].path == path && parse(attrs[i].tokens) == Some(entry) {
        var i :| 0 <= i < |attrs| && attrs[i].path == path && parse(attrs[i].tokens) == Some(entry);
        if i < n {
          assert attrs[..n][i] == attrs[i];
        }
      }
    }
  }

  lemma ParsedEntriesSnoc(front: seq<Attribute>, attr: Attribute, path: string, parse: string -> Option<Entry>)
    ensures ParsedEntries(front + [attr], path, parse) == ParsedEntries(front, path, parse)
      + (if attr.path == path && parse(attr.tokens).Some? then [parse(attr.tokens).value] else [])
  {
    assert (front + [attr])[..|front|] == front;
  }

  /** Attribute order is preserved: the entries of a concatenation are concatenated. */
  lemma HandlerEntriesAppend(xs: seq<Attribute>, ys: seq<Attribute>, path: string)
    ensures HandlerEntries(xs + ys, path) == HandlerEntries(xs, path) + HandlerEntries(ys, path)
  {
    ParsedEntriesAppend(xs, ys, path, ParseHandlerAttribute);
  }

  lemma {:induction false} ParsedEntriesAppend(xs: seq<Attribute>, ys: seq<Attribute>, path: string, parse: string -> Option<Entry>)
    ensures ParsedEntries(xs + ys, path, parse) == ParsedEntries(xs, path, parse) + ParsedEntries(ys, path, parse)
    decreases |ys|
  {
    if ys == [] {
      assert xs + ys == xs;
    } else {
      var n := |ys| - 1;
      assert (xs + ys)[..|xs + ys| - 1] == xs + ys[..n];
      ParsedEntriesAppend(xs, ys[..n], path, parse);
    }
  }

  /** One `#[path("Key" = handler)]` attribute per pair, in order. */
  function HandlerAttributes(path: string, pairs: seq<Entry>): seq<Attribute>
  {
    if pairs == [] then []
    else
      var last := pairs[|pairs| - 1];
      HandlerAttributes(path, pairs[..|pairs| - 1]) + [Attribute(path, AttributeTokens(last.0, last.1))]
  }

  /** A key without '"' and a handler name without ')' and without surrounding whitespace. */
  predicate WellFormedPair(e: Entry)
  {
    '"' !in e.0 && ')' !in e.1 && Trimmed(e.1)
  }

  predicate WellFormedPairs(pairs: seq<Entry>)
  {
    forall i :: 0 <= i < |pairs| ==> WellFormedPair(pairs[i])
  }

  /** Round trip over a whole impl block: the attributes written for well-formed pairs
      give back exactly those pairs, in order, for their own path, and nothing for
      any other path. */
  lemma HandlerAttributesRoundTrip(attrPath: string, pairs: seq<Entry>, path: string)
    requires WellFormedPairs(pairs)
    ensures HandlerEntries(HandlerAttributes(attrPath, pairs), path) == if attrPath == path then pairs else []
  {
    forall k | 0 <= k < |pairs|
      ensures ParseHandlerAttribute(AttributeTokens(pairs[k].0, pairs[k].1)) == Some(pairs[k])
    {
      ParseAttributeTokens(pairs[k].0, pairs[k].1);
    }
    ParsedAttributesRoundTrip(attrPath, pairs, path, ParseHandlerAttribute);
  }

  lemma {:induction false} ParsedAttributesRoundTrip(attrPath: string, pairs: seq<Entry>, path: string, parse: string -> Option<Entry>)
    requires forall k :: 0 <= k < |pairs| ==> parse(AttributeTokens(pairs[k].0, pairs[k].1)) == Some(pairs[k])
    ensures ParsedEntries(HandlerAttributes(attrPath, pairs), path, parse) == if attrPath == path then pairs else []
  {
    if pairs != [] {
      var n := |pairs| - 1;
      var last := pairs[n];
      var attr := Attribute(attrPath, AttributeTokens(last.0, last.1));
      var front := HandlerAttributes(attrPath, pairs[..n]);
      assert HandlerAttributes(attrPath, pairs) == front + [attr];
      assert forall k :: 0 <= k < n ==> pairs[..n][k] == pairs[k];
      ParsedAttributesRoundTrip(attrPath, pairs[..n], path, parse);
      ParsedEntriesSnoc(front, attr, path, parse);
      if attrPath == path {
        assert pairs == pairs[..n] + [last];
      }
    }
  }

  /** An impl block carrying the dispatch attributes of `dispatchPairs` and then the
      command attributes of `commandPairs` yields exactly those two lists. */
  lemma ImplBlockEntries(dispatchPairs: seq<Entry>, commandPairs: seq<Entry>)
    requires WellFormedPairs(dispatchPairs) && WellFormedPairs(commandPairs)
    ensures HandlerEntries(HandlerAttributes(DispatchMapPath, dispatchPairs) + HandlerAttributes(CommandMapPath, commandPairs), DispatchMapPath) == dispatchPairs
    ensures HandlerEntries(HandlerAttributes(DispatchMapPath, dispatchPairs) + HandlerAttributes(CommandMapPath, commandPairs), CommandMapPath) == commandPairs
  {
    var dispatch := HandlerAttributes(DispatchMapPath, dispatchPairs);
    var command := HandlerAttributes(CommandMapPath, commandPairs);
    HandlerEntriesAppend(dispatch, command, DispatchMapPath);
    HandlerEntriesAppend(dispatch, command, CommandMapPath);
    HandlerAttributesRoundTrip(DispatchMapPath, dispatchPairs, DispatchMapPath);
    HandlerAttributesRoundTrip(DispatchMapPath, dispatchPairs, CommandMapPath);
    HandlerAttributesRoundTrip(CommandMapPath, commandPairs, DispatchMapPath);
    HandlerAttributesRoundTrip(CommandMapPath, commandPairs, CommandMapPath);
    assert dispatchPairs + [] == dispatchPairs;
    assert [] + commandPairs == commandPairs;
  }

  // ---------------------------------------------------------------------------
  // #[actor(...)] arguments

  datatype Lit = LitStr(value: string) | LitOther(text: string)

  /** syn's NestedMeta / Meta, with paths as their single identifier. */
  datatype NestedMeta = MetaItem(meta: Meta) | LitItem(lit: Lit)

  datatype Meta =
    | PathMeta(path: string)
    | ListMeta(path: string, nested: seq<NestedMeta>)
    | NameValue(path: string, lit: Lit)

  predicate IsSlotsList(arg: NestedMeta)
  {
    arg.MetaItem? && arg.meta.ListMeta? && arg.meta.path == "slots"
  }

  /** The string literals of a nested list, in order, other items skipped. */
  function StringLiterals(nested: seq<NestedMeta>): seq<string>
  {
    if nested == [] then []
    else
      var last := nested[|nested| - 1];
      StringLiterals(nested[..|nested| - 1]) + (if last.LitItem? && last.lit.LitStr? then [last.lit.value] else [])
  }

  /** The slots of the first `slots(...)` list; none without one. */
  function SlotsOf(args: seq<NestedMeta>): seq<string>
  {
    var i := FirstIndex(args, IsSlotsList);
    if i < |args| then StringLiterals(args[i].meta.nested) else []
  }

  method ExtractSlotsFromAttrArgs(args: seq<NestedMeta>) returns (slots: seq<string>)
    ensures slots == SlotsOf(args)
  {
    for i := 0 to |args|
      invariant forall j :: 0 <= j < i ==> !IsSlotsList(args[j])
    {
      var arg := args[i];
      if arg.MetaItem? && arg.meta.ListMeta? && arg.meta.path == "slots" {
        var nested := arg.meta.nested;
        slots := [];
        for j := 0 to |nested|
          invariant slots == StringLiterals(nested[..j])
        {
          assert nested[..j + 1][..j] == nested[..j];
          if nested[j].LitItem? && nested[j].lit.LitStr? {
            slots := slots + [nested[j].lit.value];
          }
        }
        assert nested[..|nested|] == nested;
        FirstIndexUnique(args, IsSlotsList, i);
        return;
      }
    }
    slots := [];
  }

  /** A slot is listed exactly when the first `slots(...)` list holds it as a string
      literal; with no such list there are none. */
  lemma SlotsOfSpec(args: seq<NestedMeta>, slot: string)
    ensures (forall i :: 0 <= i < |args| ==> !IsSlotsList(args[i])) ==> SlotsOf(args) == []
    ensures forall i :: 0 <= i < |args| && IsSlotsList(args[i]) && (forall j :: 0 <= j < i ==> !IsSlotsList(args[j])) ==>
      (slot in SlotsOf(args) <==> LitItem(LitStr(slot)) in args[i].meta.nested)
  {
    forall i | 0 <= i < |args| && IsSlotsList(args[i]) && (forall j :: 0 <= j < i ==> !IsSlotsList(args[j]))
      ensures slot in SlotsOf(args) <==> LitItem(LitStr(slot)) in args[i].meta.nested
    {
      FirstIndexUnique(args, IsSlotsList, i);
      StringLiteralsMembership(args[i].meta.nested, slot);
    }
  }

  lemma {:induction false} StringLiteralsMembership(nested: seq<NestedMeta>, s: string)
    ensures s in StringLiterals(nested) <==> LitItem(LitStr(s)) in nested
  {
    if nested != [] {
      var n := |nested| - 1;
      StringLiteralsMembership(nested[..n], s);
      assert nested == nested[..n] + [nested[n]];
    }
  }

  predicate IsDefaultStateArg(arg: NestedMeta)
  {
    arg.MetaItem? && arg.meta.NameValue? && arg.meta.path == "default_state" && arg.meta.lit.LitStr?
  }

  /** The string of the first `default_state = "..."` argument; a non-string value is skipped. */
  function DefaultStateOf(args: seq<NestedMeta>): Option<string>
  {
    var i := FirstIndex(args, IsDefaultStateArg);
    if i < |args| then Some(args[i].meta.lit.value) else None
  }

  method ExtractDefaultStateFromAttrArgs(args: seq<NestedMeta>) returns (state: Option<string>)
    ensures state == DefaultStateOf(args)
  {
    for i := 0 to |args|
      invariant forall j :: 0 <= j < i ==> !IsDefaultStateArg(args[j])
    {
      var arg := args[i];
      if arg.MetaItem? && arg.meta.NameValue? && arg.meta.path == "default_state" {
        if arg.meta.lit.LitStr? {
          FirstIndexUnique(args, IsDefaultStateArg, i);
          return Some(arg.meta.lit.value);
        }
      }
    }
    return None;
  }

  /** The default state is the string of the first `default_state` argument with a
      string value, and there is none exactly when no argument is one. */
  lemma DefaultStateOfSpec(args: seq<NestedMeta>)
    ensures DefaultStateOf(args).None? <==> forall i :: 0 <= i < |args| ==> !IsDefaultStateArg(args[i])
    ensures forall i :: 0 <= i < |args| && IsDefaultStateArg(args[i]) && (forall j :: 0 <= j < i ==> !IsDefaultStateArg(args[j])) ==>
      DefaultStateOf(args) == Some(args[i].meta.lit.value)
  {
    forall i | 0 <= i < |args| && IsDefaultStateArg(args[i]) && (forall j :: 0 <= j < i ==> !IsDefaultStateArg(args[j]))
      ensures DefaultStateOf(args) == Some(args[i].meta.lit.value)
    {
      FirstIndexUnique(args, IsDefaultStateArg, i);
    }
  }
}
