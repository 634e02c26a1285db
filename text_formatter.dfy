/** initformatter.go: the text formatter, which renders an entry as
    space-separated `key=value` tokens ending in a newline: fixed keys first
    (time, level, message, error, caller), then the entry's own fields. */
module TextFormat {
  import opened Base
  import opened Strings
  import opened Buffers
  import opened Logy

  /** The keys whose rendered names `FieldMap` may change. */
  datatype FieldKey = FieldKeyTime | FieldKeyLevel | FieldKeyMsg | FieldKeyLogrusError | FieldKeyFunc | FieldKeyFile

  /** `FieldMap`: `resolve` gives a key's rendered name; `prefixClashes` is
      `prefixFieldClashes`, which renames user fields that clash with the
      fixed keys. Neither is defined in initformatter.go. */
  datatype FieldMap = FieldMap(resolve: FieldKey -> string, prefixClashes: (Fields, bool) -> Fields)

  /** A user-supplied `SortingFunc`; it sorts a slice the rendering never reads. */
  datatype SortingFunc = SortingFunc(id: nat)

  /** The characters that never force quoting: `[a-zA-Z0-9-._/@^+]`. */
  predicate SafeChar(c: char) {
    ('a' <= c <= 'z') || ('A' <= c <= 'Z') || ('0' <= c <= '9') ||
    c == '-' || c == '.' || c == '_' || c == '/' || c == '@' || c == '^' || c == '+'
  }

  /** `appendKeyValue`'s separator rule: a space before the token only when
      the buffer already holds something. */
  function Appended(content: string, token: string): (r: string)
    ensures content == [] ==> r == token
    ensures content != [] ==> r == content + " " + token
  {
    if |content| > 0 then content + " " + token else content + token
  }

  /** Appending a token written piece by piece. */
  lemma AppendedToken(content: string, key: string, text: string)
    ensures Appended(content, key + "=" + text)
            == (if |content| > 0 then content + [' '] else content) + key + ['='] + text
  {
    var sep := if |content| > 0 then content + [' '] else content;
    ConcatAssoc(sep, key + ['='], text);
    ConcatAssoc(sep, key, ['=']);
  }

  lemma ConcatAssoc(a: string, b: string, c: string)
    ensures a + (b + c) == (a + b) + c
  {
  }

  /** The buffer after appending `tokens` one by one to `start`. */
  function Render(start: string, tokens: seq<string>): string
    decreases |tokens|
  {
    if tokens == [] then start
    else Appended(Render(start, tokens[..|tokens| - 1]), tokens[|tokens| - 1])
  }

  lemma RenderStep(start: string, tokens: seq<string>, i: nat)
    requires i < |tokens|
    ensures Render(start, tokens[..i + 1]) == Appended(Render(start, tokens[..i]), tokens[i])
  {
    assert tokens[..i + 1][..i] == tokens[..i];
  }

  /** The rendered tokens are the tokens joined by single spaces, after
      whatever the buffer held and a space. */
  lemma {:induction false} RenderJoins(start: string, tokens: seq<string>)
    requires forall i :: 0 <= i < |tokens| ==> tokens[i] != []
    ensures tokens == [] ==> Render(start, tokens) == start
    ensures tokens != [] && start == [] ==> Render(start, tokens) == Join(tokens, " ")
    ensures tokens != [] && start != [] ==> Render(start, tokens) == start + " " + Join(tokens, " ")
    decreases |tokens|
  {
    if tokens != [] {
      var init := tokens[..|tokens| - 1];
      var last := tokens[|tokens| - 1];
      assert tokens == init + [last];
      RenderJoins(start, init);
      if init != [] {
        JoinSnoc(init, last, " ");
        assert Render(start, init) != [] by {
          assert |Join(init, " ")| >= |init[0]| > 0 by {
            JoinStartsWithFirst(init, " ");
          }
        }
      }
    }
  }

  lemma {:induction false} JoinStartsWithFirst(parts: seq<string>, sep: string)
    requires parts != []
    ensures |Join(parts, sep)| >= |parts[0]|
  {
  }

  /** The exported options of a `TextFormatter`, as one value: quoting
      flags, timestamps, sorting, level padding, the field map and the caller
      prettyfier. */
  datatype Config = Config(
    forceQuote: bool,
    disableQuote: bool,
    disableTimestamp: bool,
    fullTimestamp: bool,
    timestampFormat: string,
    disableSorting: bool,
    sortingFunc: Option<SortingFunc>,
    disableLevelTruncation: bool,
    padLevelText: bool,
    quoteEmptyFields: bool,
    isTerminal: bool,
    fieldMap: FieldMap,
    callerPrettyfier: Option<Frame -> (string, string)>)
  {
    /** Whether `needsQuoting` quotes `text`, by precedence: `ForceQuote`;
        then `QuoteEmptyFields` on empty text; then `DisableQuote`, which
        turns quoting off; otherwise quote when some character is not safe. */
    predicate QuoteRequired(text: string) {
      if forceQuote then true
      else if quoteEmptyFields && |text| == 0 then true
      else if disableQuote then false
      else exists i :: 0 <= i < |text| && !SafeChar(text[i])
    }

    /** The text `appendValue` writes for `value`: a Go string as it is,
        anything else through `fmt.Sprint`, quoted with `%q` when required. */
    function ValueToken(value: Value, host: Host): string {
      var text := if value.Str? then value.s else host.sprint([value]);
      if QuoteRequired(text) then host.quote(text) else text
    }

    /** One rendered `key=value` token. */
    function Token(key: string, value: Value, host: Host): string
    {
      key + "=" + ValueToken(value, host)
    }

    /** The function and file texts of the caller: `CallerPrettyfier`'s, or
        the frame's function and `file:line`; both empty without a caller. */
    function CallerTexts(entry: Entry, hasCaller: bool): (texts: (string, string))
      ensures !hasCaller ==> texts == ("", "")
    {
      if hasCaller && entry.caller.Some? then FrameTexts(entry.caller.value) else ("", "")
    }

    /** A frame's function text and `file:line` text, or what
        `CallerPrettyfier` makes of the frame. */
    function FrameTexts(frame: Frame): (string, string) {
      match callerPrettyfier
      case Some(pretty) => pretty(frame)
      case None => (frame.funcName, frame.file + ":" + Decimal(frame.line))
    }

    /** The fixed keys, in order: time unless timestamps are disabled; level
        always; the message key when there is a message; the error key when
        the entry carries a field error; then func and file, when the entry
        has a caller and the respective text is not empty. */
    function FixedKeys(entry: Entry, hasCaller: bool): seq<string> {
      var (funcVal, fileVal) := CallerTexts(entry, hasCaller);
      var withFunc := if funcVal != "" then EntryKeys(entry) + [fieldMap.resolve(FieldKeyFunc)] else EntryKeys(entry);
      if fileVal != "" then withFunc + [fieldMap.resolve(FieldKeyFile)] else withFunc
    }

    /** The fixed keys up to the error key. */
    function EntryKeys(entry: Entry): seq<string> {
      var withTime := if !disableTimestamp then [fieldMap.resolve(FieldKeyTime)] else [];
      var withLevel := withTime + [fieldMap.resolve(FieldKeyLevel)];
      var withMsg := if entry.message != "" then withLevel + [fieldMap.resolve(FieldKeyMsg)] else withLevel;
      if entry.err != "" then withMsg + [fieldMap.resolve(FieldKeyLogrusError)] else withMsg
    }

    /** The keys rendered, given the user keys in map order: sorted after the
        fixed keys; left out entirely when a `SortingFunc` is set (it is
        handed the user keys, which are then never appended); or appended as
        they came when sorting is disabled. */
    function OrderedKeys(fixed: seq<string>, userKeys: seq<string>): seq<string> {
      if !disableSorting then
        if sortingFunc.None? then fixed + SortStrings(userKeys) else fixed
      else fixed + userKeys
    }

    /** The value rendered for `key`: the first fixed key it names, else the
        user field. */
    function ValueFor(key: string, entry: Entry, hasCaller: bool, data: Fields,
                      layout: string, host: Host): Value
    {
      var (funcVal, fileVal) := CallerTexts(entry, hasCaller);
      if key == fieldMap.resolve(FieldKeyTime) then Str(host.timeText(entry.time, layout))
      else if key == fieldMap.resolve(FieldKeyLevel) then Str(host.levelText(entry.level))
      else if key == fieldMap.resolve(FieldKeyMsg) then Str(entry.message)
      else if key == fieldMap.resolve(FieldKeyLogrusError) then Str(entry.err)
      else if key == fieldMap.resolve(FieldKeyFunc) && hasCaller then Str(funcVal)
      else if key == fieldMap.resolve(FieldKeyFile) && hasCaller then Str(fileVal)
      else if key in data then data[key] else Nil
    }

    /** The tokens for `keys`, in order. */
    function Tokens(keys: seq<string>, entry: Entry, hasCaller: bool, data: Fields,
                    layout: string, host: Host): (tokens: seq<string>)
      ensures |tokens| == |keys|
      decreases |keys|
    {
      if keys == [] then []
      else
        var last := keys[|keys| - 1];
        Tokens(keys[..|keys| - 1], entry, hasCaller, data, layout, host) +
        [Token(last, ValueFor(last, entry, hasCaller, data, layout, host), host)]
    }

    /** The token at position `i` renders the key at position `i`. */
    lemma {:induction false} TokenAt(keys: seq<string>, i: nat, entry: Entry, hasCaller: bool, data: Fields,
                                     layout: string, host: Host)
      requires i < |keys|
      ensures Tokens(keys, entry, hasCaller, data, layout, host)[i]
              == Token(keys[i], ValueFor(keys[i], entry, hasCaller, data, layout, host), host)
      decreases |keys|
    {
      if i < |keys| - 1 {
        TokenAt(keys[..|keys| - 1], i, entry, hasCaller, data, layout, host);
      }
    }

    /** The timestamp layout: the configured one, else the default. */
    function Layout(host: Host): string {
      if timestampFormat == "" then host.defaultTimestampFormat else timestampFormat
    }

    /** What `Format` writes after `start`, given the user keys in map order. */
    function Rendering(start: string, entry: Entry, hasCaller: bool, userKeys: seq<string>,
                       host: Host): string
    {
      var data := fieldMap.prefixClashes(entry.data, hasCaller);
      var keys := OrderedKeys(FixedKeys(entry, hasCaller), userKeys);
      Render(start, Tokens(keys, entry, hasCaller, data, Layout(host), host)) + "\n"
    }
  }

  /** `out` is what `Format` writes after `start` for some enumeration of
      the user keys. */
  ghost predicate Formatted(c: Config, start: string, entry: Entry, hasCaller: bool, host: Host, out: string) {
    exists userKeys ::
      Enumerates(userKeys, c.fieldMap.prefixClashes(entry.data, hasCaller).Keys) &&
      out == c.Rendering(start, entry, hasCaller, userKeys, host)
  }

  lemma FormattedAs(c: Config, start: string, entry: Entry, hasCaller: bool, userKeys: seq<string>,
                    keys: seq<string>, data: Fields, layout: string, host: Host, out: string)
    requires data == c.fieldMap.prefixClashes(entry.data, hasCaller)
    requires Enumerates(userKeys, data.Keys)
    requires keys == c.OrderedKeys(c.FixedKeys(entry, hasCaller), userKeys)
    requires layout == c.Layout(host)
    requires out == Render(start, c.Tokens(keys, entry, hasCaller, data, layout, host)) + "\n"
    ensures Formatted(c, start, entry, hasCaller, host, out)
  {
  }

  class TextFormatter {
    /** The formatter's exported options (and `isTerminal`). */
    var options: Config
    /** Whether `terminalInitOnce` has run `init`. */
    var initDone: bool
    var levelTextMaxLength: int

    /** `new(TextFormatter)` with the given field map: every option off. */
    constructor (fieldMap: FieldMap)
      ensures options == Config(false, false, false, false, "", false, None, false, false, false, false,
                                fieldMap, None)
      ensures !initDone && levelTextMaxLength == 0
    {
      options := Config(false, false, false, false, "", false, None, false, false, false, false,
                        fieldMap, None);
      initDone := false;
      levelTextMaxLength := 0;
    }

    // ----- init -----

    /** `init`: raises `levelTextMaxLength` to the longest level text, counted
        in runes. */
    method Init(host: Host)
      modifies this`levelTextMaxLength
      ensures levelTextMaxLength == MaxLevelText(old(levelTextMaxLength), host.allLevels, host.levelText)
    {
      var i := 0;
      while i < |host.allLevels|
        invariant 0 <= i <= |host.allLevels|
        invariant levelTextMaxLength == MaxLevelText(old(levelTextMaxLength), host.allLevels[..i], host.levelText)
      {
        assert host.allLevels[..i + 1][..i] == host.allLevels[..i];
        var levelTextLength := |host.levelText(host.allLevels[i])|;
        if levelTextLength > levelTextMaxLength {
          levelTextMaxLength := levelTextLength;
        }
        i := i + 1;
      }
      assert host.allLevels[..i] == host.allLevels;
    }

    // ----- needsQuoting, appendValue, appendKeyValue -----

    /** `needsQuoting`: the flag checks, then a scan that stops at the first
        unsafe character. */
    method NeedsQuoting(text: string) returns (quote: bool)
      ensures quote == options.QuoteRequired(text)
    {
      if options.forceQuote {
        return true;
      }
      if options.quoteEmptyFields && |text| == 0 {
        return true;
      }
      if options.disableQuote {
        return false;
      }
      var i := 0;
      while i < |text|
        invariant 0 <= i <= |text|
        invariant forall j :: 0 <= j < i ==> SafeChar(text[j])
      {
        if !SafeChar(text[i]) {
          return true;
        }
        i := i + 1;
      }
      return false;
    }

    method AppendValue(b: Buffer, value: Value, host: Host)
      modifies b
      ensures b.content == old(b.content) + options.ValueToken(value, host)
    {
      var stringVal := if value.Str? then value.s else host.sprint([value]);
      var quote := NeedsQuoting(stringVal);
      if !quote {
        b.WriteString(stringVal);
      } else {
        b.WriteString(host.quote(stringVal));
      }
    }

    method AppendKeyValue(b: Buffer, key: string, value: Value, host: Host)
      modifies b
      ensures b.content == Appended(old(b.content), options.Token(key, value, host))
    {
      if |b.content| > 0 {
        b.WriteByte(' ');
      }
      b.WriteString(key);
      b.WriteByte('=');
      AppendValue(b, value, host);
      AppendedToken(old(b.content), key, options.ValueToken(value, host));
    }

    // ----- Format -----

    /** `Format`: collects the user keys of a copy of the entry's fields, in
        the map's order, puts the fixed keys first, sorts or drops the user
        keys as configured, runs `init` once, and renders every key into the
        entry's buffer (or a new one), ending with a newline. */
    method Format(entry: Entry, host: Host) returns (out: string)
      modifies this`levelTextMaxLength, this`initDone, entry.buffer
      ensures initDone
      ensures old(initDone) ==> levelTextMaxLength == old(levelTextMaxLength)
      ensures !old(initDone) ==>
                levelTextMaxLength == MaxLevelText(old(levelTextMaxLength), host.allLevels, host.levelText)
      ensures Formatted(options, if entry.buffer != null then old(entry.buffer.content) else [],
                        entry, old(entry.HasCaller()), host, out)
      ensures entry.buffer != null ==> entry.buffer.content == out
      ensures out != [] && out[|out| - 1] == '\n'
    {
      ghost var start := if entry.buffer != null then entry.buffer.content else [];
      var hasCaller := entry.HasCaller();
      var data := options.fieldMap.prefixClashes(entry.data, hasCaller);
      var fixedKeys, userKeys := OrderKeys(entry, hasCaller, data);
      var b := BufferFor(entry);
      InitOnce(host);
      out := WriteLine(b, fixedKeys, entry, hasCaller, data, host, start, userKeys);
    }

    /** The rendering part of `Format`: every key's token into `b`, then the
        newline. */
    method WriteLine(b: Buffer, keys: seq<string>, entry: Entry, hasCaller: bool, data: Fields,
                     host: Host, ghost start: string, ghost userKeys: seq<string>) returns (out: string)
      requires b.content == start
      requires data == options.fieldMap.prefixClashes(entry.data, hasCaller)
      requires Enumerates(userKeys, data.Keys)
      requires keys == options.OrderedKeys(options.FixedKeys(entry, hasCaller), userKeys)
      modifies b
      ensures Formatted(options, start, entry, hasCaller, host, out)
      ensures b.content == out
      ensures out != [] && out[|out| - 1] == '\n'
    {
      var layout := if options.timestampFormat == "" then host.defaultTimestampFormat else options.timestampFormat;
      RenderKeys(b, keys, entry, hasCaller, data, layout, host);
      b.WriteByte('\n');
      out := b.content;
      FormattedAs(options, start, entry, hasCaller, userKeys, keys, data, layout, host, out);
    }

    /** `entry.Buffer`, or a new buffer when the entry has none. */
    static method BufferFor(entry: Entry) returns (b: Buffer)
      ensures entry.buffer != null ==> b == entry.buffer
      ensures entry.buffer == null ==> fresh(b) && b.content == []
    {
      if entry.buffer != null {
        b := entry.buffer;
      } else {
        b := new Buffer();
      }
    }

    /** `terminalInitOnce.Do`: runs `init` the first time only. */
    method InitOnce(host: Host)
      modifies this`levelTextMaxLength, this`initDone
      ensures initDone
      ensures old(initDone) ==> levelTextMaxLength == old(levelTextMaxLength)
      ensures !old(initDone) ==>
                levelTextMaxLength == MaxLevelText(old(levelTextMaxLength), host.allLevels, host.levelText)
    {
      if !initDone {
        Init(host);
        initDone := true;
      }
    }

    /** The key-ordering part of `Format`: the user keys in the map's order,
        the fixed keys, then the user keys sorted, dropped or kept as they came. */
    method OrderKeys(entry: Entry, hasCaller: bool, data: Fields)
      returns (fixedKeys: seq<string>, ghost userKeys: seq<string>)
      ensures Enumerates(userKeys, data.Keys)
      ensures fixedKeys == options.OrderedKeys(options.FixedKeys(entry, hasCaller), userKeys)
    {
      var keys := CollectKeys(data);
      userKeys := keys;
      fixedKeys := CollectFixedKeys(entry, hasCaller);
      if !options.disableSorting {
        if options.sortingFunc.None? {
          keys := SortStrings(keys);
          fixedKeys := fixedKeys + keys;
        } else {
          // the SortingFunc reorders `keys`, which nothing reads afterwards
        }
      } else {
        fixedKeys := fixedKeys + keys;
      }
    }

    /** The keys of `data`, in the map's iteration order. */
    method CollectKeys(data: Fields) returns (keys: seq<string>)
      ensures Enumerates(keys, data.Keys)
    {
      keys := [];
      var rest := data.Keys;
      while rest != {}
        invariant rest <= data.Keys
        invariant multiset(keys) + multiset(rest) == multiset(data.Keys)
        decreases |rest|
      {
        var k :| k in rest;
        assert multiset(rest) == multiset(rest - {k}) + multiset{k} by {
          assert rest == (rest - {k}) + {k};
        }
        keys := keys + [k];
        rest := rest - {k};
      }
    }

    /** The caller's function and file texts, through `CallerPrettyfier`
        when one is set. */
    method CallerValues(frame: Frame) returns (funcVal: string, fileVal: string)
      ensures (funcVal, fileVal) == options.FrameTexts(frame)
    {
      if options.callerPrettyfier.Some? {
        var texts := options.callerPrettyfier.value(frame);
        funcVal, fileVal := texts.0, texts.1;
      } else {
        funcVal := frame.funcName;
        fileVal := frame.file + ":" + Decimal(frame.line);
      }
    }

    /** The fixed-key part of `Format`. */
    method CollectFixedKeys(entry: Entry, hasCaller: bool) returns (fixedKeys: seq<string>)
      ensures fixedKeys == options.FixedKeys(entry, hasCaller)
    {
      var funcVal, fileVal := "", "";
      fixedKeys := [];
      if !options.disableTimestamp {
        fixedKeys := fixedKeys + [options.fieldMap.resolve(FieldKeyTime)];
      }
      fixedKeys := fixedKeys + [options.fieldMap.resolve(FieldKeyLevel)];
      if entry.message != "" {
        fixedKeys := fixedKeys + [options.fieldMap.resolve(FieldKeyMsg)];
      }
      if entry.err != "" {
        fixedKeys := fixedKeys + [options.fieldMap.resolve(FieldKeyLogrusError)];
      }
      assert fixedKeys == options.EntryKeys(entry);
      if hasCaller && entry.caller.Some? {
        funcVal, fileVal := CallerValues(entry.caller.value);
        if funcVal != "" {
          fixedKeys := fixedKeys + [options.fieldMap.resolve(FieldKeyFunc)];
        }
        if fileVal != "" {
          fixedKeys := fixedKeys + [options.fieldMap.resolve(FieldKeyFile)];
        }
      }
    }

    /** The rendering loop of `Format`. */
    method RenderKeys(b: Buffer, keys: seq<string>, entry: Entry, hasCaller: bool, data: Fields,
                      layout: string, host: Host)
      modifies b
      ensures b.content == Render(old(b.content), options.Tokens(keys, entry, hasCaller, data, layout, host))
    {
      var config := options;
      ghost var tokens := config.Tokens(keys, entry, hasCaller, data, layout, host);
      ghost var start := b.content;
      var i := 0;
      while i < |keys|
        invariant 0 <= i <= |keys|
        invariant b.content == Render(start, tokens[..i])
      {
        var key := keys[i];
        var value := config.ValueFor(key, entry, hasCaller, data, layout, host);
        config.TokenAt(keys, i, entry, hasCaller, data, layout, host);
        RenderStep(start, tokens, i);
        AppendKeyValue(b, key, value, host);
        i := i + 1;
      }
      assert tokens[..i] == tokens;
    }
  }

  /** The largest of `start` and the rune counts of the level texts. */
  function MaxLevelText(start: int, levels: seq<Level>, text: Level -> string): (m: int)
    ensures m >= start
    ensures forall i :: 0 <= i < |levels| ==> m >= |text(levels[i])|
    ensures m == start || exists i :: 0 <= i < |levels| && m == |text(levels[i])|
    decreases |levels|
  {
    if levels == [] then start
    else
      var init := levels[..|levels| - 1];
      var n := |text(levels[|levels| - 1])|;
      var m := MaxLevelText(start, init, text);
      assert forall i :: 0 <= i < |init| ==> init[i] == levels[i];
      if n > m then n else m
  }

  // ----- properties of the key order -----

  /** With sorting on and no `SortingFunc`, the user keys follow the fixed
      keys in ascending order, each once, whatever order the map gave them. */
  lemma SortedUserKeys(c: Config, fixed: seq<string>, userKeys: seq<string>, other: seq<string>)
    requires !c.disableSorting && c.sortingFunc.None?
    requires multiset(other) == multiset(userKeys)
    ensures var keys := c.OrderedKeys(fixed, userKeys);
            keys[..|fixed|] == fixed &&
            Sorted(keys[|fixed|..]) && multiset(keys[|fixed|..]) == multiset(userKeys)
    ensures c.OrderedKeys(fixed, userKeys) == c.OrderedKeys(fixed, other)
  {
    var keys := c.OrderedKeys(fixed, userKeys);
    assert keys[|fixed|..] == SortStrings(userKeys);
    SortedUnique(SortStrings(userKeys), SortStrings(other));
  }

  /** With a `SortingFunc`, only the fixed keys are rendered; with sorting
      disabled, the user keys follow the fixed keys as the map gave them. */
  lemma UnsortedKeyOrders(c: Config, fixed: seq<string>, userKeys: seq<string>)
    ensures !c.disableSorting && c.sortingFunc.Some? ==> c.OrderedKeys(fixed, userKeys) == fixed
    ensures c.disableSorting ==> c.OrderedKeys(fixed, userKeys) == fixed + userKeys
  {
  }

  /** Unless sorting is disabled, what `Format` writes does not depend on
      the order in which the map yielded its keys. */
  lemma {:induction false} FormatDeterministic(c: Config, start: string, entry: Entry, hasCaller: bool,
                                               host: Host, out1: string, out2: string)
    requires !c.disableSorting
    requires Formatted(c, start, entry, hasCaller, host, out1)
    requires Formatted(c, start, entry, hasCaller, host, out2)
    ensures out1 == out2
  {
    var keys := c.fieldMap.prefixClashes(entry.data, hasCaller).Keys;
    var u1 :| Enumerates(u1, keys) && out1 == c.Rendering(start, entry, hasCaller, u1, host);
    var u2 :| Enumerates(u2, keys) && out2 == c.Rendering(start, entry, hasCaller, u2, host);
    var fixed := c.FixedKeys(entry, hasCaller);
    if c.sortingFunc.None? {
      SortedUserKeys(c, fixed, u1, u2);
    }
    assert c.OrderedKeys(fixed, u1) == c.OrderedKeys(fixed, u2);
  }

  /** `Format` keeps what the buffer held: the output starts with it. */
  lemma FormatExtendsBuffer(c: Config, start: string, entry: Entry, hasCaller: bool,
                            host: Host, out: string)
    requires Formatted(c, start, entry, hasCaller, host, out)
    ensures |out| > |start| && out[..|start|] == start
  {
    var u :| Enumerates(u, c.fieldMap.prefixClashes(entry.data, hasCaller).Keys) &&
             out == c.Rendering(start, entry, hasCaller, u, host);
    var data := c.fieldMap.prefixClashes(entry.data, hasCaller);
    var keys := c.OrderedKeys(c.FixedKeys(entry, hasCaller), u);
    RenderExtends(start, c.Tokens(keys, entry, hasCaller, data, c.Layout(host), host));
  }

  lemma {:induction false} RenderExtends(start: string, tokens: seq<string>)
    ensures |Render(start, tokens)| >= |start| && Render(start, tokens)[..|start|] == start
    decreases |tokens|
  {
    if tokens != [] {
      RenderExtends(start, tokens[..|tokens| - 1]);
    }
  }

  /** The fixed keys: the time key first unless timestamps are disabled,
      else the level key; one key per present part, so at most four without
      a caller and at most six with one. */
  lemma FixedKeysShape(c: Config, entry: Entry, hasCaller: bool)
    ensures var keys := c.FixedKeys(entry, hasCaller);
            (!c.disableTimestamp ==> keys[0] == c.fieldMap.resolve(FieldKeyTime)) &&
            (c.disableTimestamp ==> keys[0] == c.fieldMap.resolve(FieldKeyLevel)) &&
            c.fieldMap.resolve(FieldKeyLevel) in keys &&
            (entry.message != "" ==> c.fieldMap.resolve(FieldKeyMsg) in keys) &&
            (entry.err != "" ==> c.fieldMap.resolve(FieldKeyLogrusError) in keys) &&
            1 <= |keys| <= 6 && (!hasCaller ==> |keys| <= 4)
  {
    var keys := c.EntryKeys(entry);
    assert keys[0] == if !c.disableTimestamp then c.fieldMap.resolve(FieldKeyTime) else c.fieldMap.resolve(FieldKeyLevel);
  }

  /** Empty text is not quoted under the default flags; `ForceQuote` quotes
      everything; `DisableQuote` turns quoting off unless a flag before it
      in the precedence applies. */
  lemma QuotingPrecedence(c: Config, text: string)
    ensures !c.forceQuote && !c.quoteEmptyFields ==> !c.QuoteRequired("")
    ensures c.forceQuote ==> c.QuoteRequired(text)
    ensures !c.forceQuote && !(c.quoteEmptyFields && text == []) && c.disableQuote ==> !c.QuoteRequired(text)
    ensures (forall i :: 0 <= i < |text| ==> SafeChar(text[i])) && !c.forceQuote && text != [] ==> !c.QuoteRequired(text)
  {
  }

  /** A rendered line is the tokens joined by single spaces, then a newline. */
  lemma RenderingIsJoinedTokens(c: Config, entry: Entry, hasCaller: bool,
                                userKeys: seq<string>, host: Host)
    ensures var data := c.fieldMap.prefixClashes(entry.data, hasCaller);
            var keys := c.OrderedKeys(c.FixedKeys(entry, hasCaller), userKeys);
            c.Rendering([], entry, hasCaller, userKeys, host)
              == Join(c.Tokens(keys, entry, hasCaller, data, c.Layout(host), host), " ") + "\n"
  {
    var data := c.fieldMap.prefixClashes(entry.data, hasCaller);
    var keys := c.OrderedKeys(c.FixedKeys(entry, hasCaller), userKeys);
    var tokens := c.Tokens(keys, entry, hasCaller, data, c.Layout(host), host);
    forall i | 0 <= i < |tokens| ensures tokens[i] != [] {
      c.TokenAt(keys, i, entry, hasCaller, data, c.Layout(host), host);
    }
    RenderJoins([], tokens);
  }
}
