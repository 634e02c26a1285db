/** The value-level parts of entry.go: how `WithFields` merges incoming fields
    into a copy of an entry's field map and records the keys it refuses, and
    how `getPackageName` trims a qualified function name. */
module EntryData {
  import opened Base
  import opened Strings

  /** `ErrorKey`, the key `WithError` stores the error under. */
  const ErrorKey := "error"

  /** The text recorded for a refused key: `fmt.Sprintf("can not add field %q", key)`. */
  function CannotAdd(key: string, quote: string -> string): (msg: string)
    ensures |msg| == 18 + |quote(key)|
    ensures msg[..18] == "can not add field " && msg[18..] == quote(key)
  {
    "can not add field " + quote(key)
  }

  // ----- the merge loop of WithFields, as the source writes it -----

  ghost predicate InFields(order: seq<string>, fields: Fields) {
    forall i :: 0 <= i < |order| ==> order[i] in fields
  }

  /** The loop of `WithFields` over the incoming fields, visited in `order`
      (Go's iteration order of the incoming map). `data` and `fieldErr` are the
      loop's running values; `entryErr` is the receiver's `err`, which the
      second and later refusals build on instead of `fieldErr`. */
  function MergeLoop(entryErr: string, data: Fields, fieldErr: string, fields: Fields,
                     order: seq<string>, quote: string -> string): (r: (Fields, string))
    requires InFields(order, fields)
    ensures data.Keys <= r.0.Keys
    ensures fieldErr != "" ==> r.1 != ""
    decreases |order|
  {
    if order == [] then (data, fieldErr)
    else
      var k := order[0];
      var v := fields[k];
      if v.IsFunc() then
        var tmp := CannotAdd(k, quote);
        MergeLoop(entryErr, data, if fieldErr != "" then entryErr + ", " + tmp else tmp,
                  fields, order[1..], quote)
      else
        MergeLoop(entryErr, data[k := v], fieldErr, fields, order[1..], quote)
  }

  // ----- what the loop computes, stated without the loop -----

  /** The incoming fields that are stored: those whose value is not a function. */
  function Accepted(fields: Fields): Fields {
    map k | k in fields && !fields[k].IsFunc() :: fields[k]
  }

  function AcceptedAmong(fields: Fields, order: seq<string>): Fields {
    map k | k in fields && k in order && !fields[k].IsFunc() :: fields[k]
  }

  /** The refused keys, in the order the loop visits them. */
  function Refused(fields: Fields, order: seq<string>): (r: seq<string>)
    ensures forall i :: 0 <= i < |r| ==> r[i] in order && r[i] in fields && fields[r[i]].IsFunc()
  {
    if order == [] then []
    else
      var k := order[0];
      (if k in fields && fields[k].IsFunc() then [k] else []) + Refused(fields, order[1..])
  }

  /** The field-error text after refusing `refused`, starting from `current`:
      unchanged when nothing is refused; the bare message when the text was
      empty and one key is refused; otherwise the receiver's text, ", ", and the
      message for the LAST refused key only. */
  function ErrAfter(entryErr: string, current: string, refused: seq<string>,
                    quote: string -> string): string
  {
    if refused == [] then current
    else if current == "" && |refused| == 1 then CannotAdd(refused[0], quote)
    else entryErr + ", " + CannotAdd(refused[|refused| - 1], quote)
  }

  lemma {:induction false} MergeLoopData(entryErr: string, data: Fields, fieldErr: string,
                                         fields: Fields, order: seq<string>, quote: string -> string)
    requires InFields(order, fields)
    ensures MergeLoop(entryErr, data, fieldErr, fields, order, quote).0 == data + AcceptedAmong(fields, order)
    decreases |order|
  {
    if order != [] {
      var k := order[0];
      var v := fields[k];
      var rest := order[1..];
      var next := if v.IsFunc() then data else data[k := v];
      MergeLoopData(entryErr, next, if v.IsFunc() then (if fieldErr != "" then entryErr + ", " + CannotAdd(k, quote) else CannotAdd(k, quote)) else fieldErr,
                    fields, rest, quote);
      AcceptedAmongStep(data, fields, order);
    }
  }

  /** One visited key: storing it (or not, for a function) and then the rest
      gives the same map as taking all of `order` at once. */
  lemma AcceptedAmongStep(data: Fields, fields: Fields, order: seq<string>)
    requires order != [] && order[0] in fields
    ensures (if fields[order[0]].IsFunc() then data else data[order[0] := fields[order[0]]])
              + AcceptedAmong(fields, order[1..]) == data + AcceptedAmong(fields, order)
  {
    assert forall x :: x in order <==> x == order[0] || x in order[1..];
  }

  lemma {:induction false} MergeLoopErr(entryErr: string, data: Fields, fieldErr: string,
                                        fields: Fields, order: seq<string>, quote: string -> string)
    requires InFields(order, fields)
    ensures MergeLoop(entryErr, data, fieldErr, fields, order, quote).1
            == ErrAfter(entryErr, fieldErr, Refused(fields, order), quote)
    decreases |order|
  {
    if order != [] {
      var k := order[0];
      var v := fields[k];
      var rest := order[1..];
      if v.IsFunc() {
        var tmp := CannotAdd(k, quote);
        var next := if fieldErr != "" then entryErr + ", " + tmp else tmp;
        MergeLoopErr(entryErr, data, next, fields, rest, quote);
        var r := Refused(fields, rest);
        assert Refused(fields, order) == [k] + r;
        if r != [] {
          assert next != "";
          assert ([k] + r)[|[k] + r| - 1] == r[|r| - 1];
        }
      } else {
        MergeLoopData(entryErr, data, fieldErr, fields, rest, quote);
        MergeLoopErr(entryErr, data[k := v], fieldErr, fields, rest, quote);
        assert Refused(fields, order) == Refused(fields, rest);
      }
    }
  }

  lemma EnumerationInFields(order: seq<string>, fields: Fields)
    requires Enumerates(order, fields.Keys)
    ensures InFields(order, fields)
    ensures forall k :: k in fields <==> k in order
  {
    forall i | 0 <= i < |order| ensures order[i] in fields {
      assert order[i] in multiset(order);
    }
    forall k | k in fields ensures k in order {
      assert k in multiset(fields.Keys);
    }
  }

  lemma AcceptedAmongEnumeration(fields: Fields, order: seq<string>)
    requires forall k :: k in fields <==> k in order
    ensures AcceptedAmong(fields, order) == Accepted(fields)
  {
    var a, b := AcceptedAmong(fields, order), Accepted(fields);
    assert a.Keys == b.Keys;
    forall k | k in a ensures a[k] == b[k] { }
  }

  /** `WithFields` on the receiver's field map `data` and field error `err`,
      visiting the incoming `fields` in `order`: the new map is the old one
      overridden by every incoming field that is not a function, and the new
      error text is `ErrAfter` of the refused keys. */
  function MergeFields(data: Fields, err: string, fields: Fields, order: seq<string>,
                       quote: string -> string): (r: (Fields, string))
    requires Enumerates(order, fields.Keys)
    ensures r.0 == data + Accepted(fields)
    ensures r.1 == ErrAfter(err, err, Refused(fields, order), quote)
  {
    EnumerationInFields(order, fields);
    MergeLoopData(err, data, err, fields, order, quote);
    MergeLoopErr(err, data, err, fields, order, quote);
    AcceptedAmongEnumeration(fields, order);
    MergeLoop(err, data, err, fields, order, quote)
  }

  // ----- getPackageName -----

  /** `getPackageName`: while a '.' follows the last '/', cut the name at its
      last '.'. The result is a prefix of `f` with no '.' after its last '/',
      nothing at or after a '/' is cut, a shortened result stops just before a
      '.', and `f` is kept whole when no '.' follows its last '/'. */
  function PackageName(f: string): (r: string)
    ensures |r| <= |f| && r == f[..|r|]
    ensures LastIndexOf(r, '.') <= LastIndexOf(r, '/')
    ensures LastIndexOf(f, '.') <= LastIndexOf(f, '/') ==> r == f
    ensures forall j :: |r| <= j < |f| ==> f[j] != '/'
    ensures |r| < |f| ==> f[|r|] == '.'
    decreases |f|
  {
    var lastPeriod := LastIndexOf(f, '.');
    var lastSlash := LastIndexOf(f, '/');
    if lastPeriod > lastSlash then
      var r := PackageName(f[..lastPeriod]);
      assert forall j :: |r| <= j < lastPeriod ==> f[..lastPeriod][j] == f[j];
      r
    else f
  }

  /** The four properties of `PackageName` determine it: any prefix of `f`
      with no '.' after its last '/', that cuts no '/' away and that, when
      shorter than `f`, stops just before a '.', is the package name. */
  lemma PackageNameUnique(f: string, r: string)
    requires |r| <= |f| && r == f[..|r|]
    requires LastIndexOf(r, '.') <= LastIndexOf(r, '/')
    requires forall j :: |r| <= j < |f| ==> f[j] != '/'
    requires |r| < |f| ==> f[|r|] == '.'
    ensures r == PackageName(f)
  {
    var q := PackageName(f);
    if |r| < |q| {
      CutBeforeDot(f, r, q);
    } else if |q| < |r| {
      CutBeforeDot(f, q, r);
    }
  }

  /** Of two candidate cuts, the shorter one's '.' would follow the longer
      one's last '/'. */
  lemma CutBeforeDot(f: string, short: string, long: string)
    requires |short| < |long| <= |f| && long == f[..|long|]
    requires forall j :: |short| <= j < |f| ==> f[j] != '/'
    requires f[|short|] == '.'
    ensures LastIndexOf(long, '.') > LastIndexOf(long, '/')
  {
    assert long[|short|] == '.';
    assert LastIndexOf(long, '.') >= |short|;
  }

  lemma PackageNameIdempotent(f: string)
    ensures PackageName(PackageName(f)) == PackageName(f)
  {
  }
}
