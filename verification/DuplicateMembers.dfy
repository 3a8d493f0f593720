/** The walk that refuses repeated object members
    (internal/anthropicapi/types.go; section 4 of RFC 8259). */
module DuplicateMembers {
  import opened Basics

  /** What the JSON decoder hands out; strings and member names look alike. */
  datatype Token = OpenObject | CloseObject | OpenArray | CloseArray | Text(text: string) | Literal(literal: string)

  datatype Json = Scalar(token: Token) | Array(items: Items) | Object(members: Members)

  datatype Items = NoItems | Item(head: Json, tail: Items)

  datatype Members = NoMembers | Member(name: string, value: Json, rest: Members)

  predicate WellFormed(v: Json) {
    match v
    case Scalar(token) => token.Text? || token.Literal?
    case Array(items) => WellFormedItems(items)
    case Object(members) => WellFormedMembers(members)
  }

  predicate WellFormedItems(items: Items) {
    items.Item? ==> WellFormed(items.head) && WellFormedItems(items.tail)
  }

  predicate WellFormedMembers(ms: Members) {
    ms.Member? ==> WellFormed(ms.value) && WellFormedMembers(ms.rest)
  }

  function Tokens(v: Json): seq<Token> {
    match v
    case Scalar(token) => [token]
    case Array(items) => [OpenArray] + ItemTokens(items) + [CloseArray]
    case Object(members) => [OpenObject] + MemberTokens(members) + [CloseObject]
  }

  function ItemTokens(items: Items): seq<Token> {
    if items.NoItems? then [] else Tokens(items.head) + ItemTokens(items.tail)
  }

  function MemberTokens(ms: Members): seq<Token> {
    if ms.NoMembers? then [] else [Text(ms.name)] + Tokens(ms.value) + MemberTokens(ms.rest)
  }

  function Names(ms: Members): seq<string> {
    if ms.NoMembers? then [] else [ms.name] + Names(ms.rest)
  }

  /** No object at any depth repeats a member name. */
  ghost predicate NoRepeats(v: Json) {
    match v
    case Scalar(_) => true
    case Array(items) => NoRepeatsInItems(items)
    case Object(members) => Distinct(Names(members)) && NoRepeatsInValues(members)
  }

  ghost predicate NoRepeatsInItems(items: Items) {
    items.Item? ==> NoRepeats(items.head) && NoRepeatsInItems(items.tail)
  }

  ghost predicate NoRepeatsInValues(ms: Members) {
    ms.Member? ==> NoRepeats(ms.value) && NoRepeatsInValues(ms.rest)
  }

  ghost predicate Distinct(names: seq<string>) {
    forall i, k :: 0 <= i < k < |names| ==> names[i] != names[k]
  }

  // ---------------------------------------------------------------------------
  // The walk, as a function of the tokens still to come

  /** decoder.More: another element before the enclosing object or array ends. */
  predicate More(ts: seq<Token>) {
    ts != [] && !ts[0].CloseObject? && !ts[0].CloseArray?
  }

  function Skip(ts: seq<Token>): (r: Option<seq<Token>>)
    ensures r.Some? ==> |r.value| < |ts|
  {
    if ts == [] then None else Some(ts[1..])
  }

  function Walk(ts: seq<Token>): (r: Option<seq<Token>>)
    ensures r.Some? ==> |r.value| < |ts|
    decreases |ts|, 0
  {
    if ts == [] then None
    else if ts[0].OpenObject? then WalkMembers(ts[1..], {})
    else if ts[0].OpenArray? then WalkItems(ts[1..])
    else if ts[0].Text? || ts[0].Literal? then Some(ts[1..])
    else Skip(ts[1..])
  }

  function WalkMembers(ts: seq<Token>, seen: set<string>): (r: Option<seq<Token>>)
    ensures r.Some? ==> |r.value| < |ts|
    decreases |ts|, 1
  {
    if !More(ts) then Skip(ts)
    else if !ts[0].Text? || ts[0].text in seen then None
    else
      var next := Walk(ts[1..]);
      if next.None? then None else WalkMembers(next.value, seen + {ts[0].text})
  }

  function WalkItems(ts: seq<Token>): (r: Option<seq<Token>>)
    ensures r.Some? ==> |r.value| < |ts|
    decreases |ts|, 1
  {
    if !More(ts) then Skip(ts)
    else
      var next := Walk(ts);
      if next.None? then None else WalkItems(next.value)
  }

  // ---------------------------------------------------------------------------
  // The program itself

  class Decoder {
    var rest: seq<Token>

    constructor (tokens: seq<Token>)
      ensures rest == tokens
    {
      rest := tokens;
    }

    method Token() returns (t: Option<Token>)
      modifies this
      ensures t.Some? <==> old(rest) != []
      ensures t.Some? ==> t.value == old(rest)[0] && rest == old(rest)[1..]
      ensures t.None? ==> rest == old(rest)
    {
      if rest == [] {
        return None;
      }
      t, rest := Some(rest[0]), rest[1..];
    }
  }

  /** walkForDuplicateMembers. */
  method WalkForDuplicates(d: Decoder) returns (ok: bool)
    modifies d
    ensures ok <==> Walk(old(d.rest)).Some?
    ensures ok ==> d.rest == Walk(old(d.rest)).value
    ensures |d.rest| <= |old(d.rest)|
    decreases |d.rest|
  {
    var token := d.Token();
    if token.None? {
      return false;
    }
    if token.value.Text? || token.value.Literal? {
      return true;
    }
    if token.value.OpenObject? {
      var seen: set<string> := {};
      while More(d.rest)
        invariant |d.rest| < |old(d.rest)|
        invariant WalkMembers(old(d.rest)[1..], {}) == WalkMembers(d.rest, seen)
        decreases |d.rest|
      {
        var name := d.Token();
        if !name.value.Text? || name.value.text in seen {
          return false;
        }
        seen := seen + {name.value.text};
        var inner := WalkForDuplicates(d);
        if !inner {
          return false;
        }
      }
    } else if token.value.OpenArray? {
      while More(d.rest)
        invariant |d.rest| < |old(d.rest)|
        invariant WalkItems(old(d.rest)[1..]) == WalkItems(d.rest)
        decreases |d.rest|
      {
        var inner := WalkForDuplicates(d);
        if !inner {
          return false;
        }
      }
    }
    var last := d.Token();
    ok := last.Some?;
  }

  // ---------------------------------------------------------------------------
  // What the walk decides

  lemma {:induction false} WalkValue(v: Json, after: seq<Token>)
    requires WellFormed(v)
    ensures Walk(Tokens(v) + after) == if NoRepeats(v) then Some(after) else None
  {
    var ts := Tokens(v) + after;
    match v
    case Scalar(_) =>
      assert ts[1..] == after;
    case Array(items) =>
      assert ts[1..] == ItemTokens(items) + ([CloseArray] + after);
      WalkItemsOf(items, after);
    case Object(members) =>
      assert ts[1..] == MemberTokens(members) + ([CloseObject] + after);
      WalkMembersOf(members, {}, after);
  }

  lemma {:induction false} FirstToken(v: Json)
    requires WellFormed(v)
    ensures Tokens(v) != [] && More(Tokens(v))
  {}

  lemma {:induction false} WalkItemsOf(items: Items, after: seq<Token>)
    requires WellFormedItems(items)
    ensures WalkItems(ItemTokens(items) + ([CloseArray] + after))
         == if NoRepeatsInItems(items) then Some(after) else None
  {
    var ts := ItemTokens(items) + ([CloseArray] + after);
    if items.NoItems? {
      assert ts == [CloseArray] + after && ts[1..] == after;
    } else {
      var more := ItemTokens(items.tail) + ([CloseArray] + after);
      assert ts == Tokens(items.head) + more;
      FirstToken(items.head);
      WalkValue(items.head, more);
      WalkItemsOf(items.tail, after);
    }
  }

  lemma {:induction false} WalkMembersOf(ms: Members, seen: set<string>, after: seq<Token>)
    requires WellFormedMembers(ms)
    ensures WalkMembers(MemberTokens(ms) + ([CloseObject] + after), seen)
         == if Distinct(Names(ms)) && (forall n :: n in Names(ms) ==> n !in seen)
               && NoRepeatsInValues(ms) then Some(after) else None
  {
    var ts := MemberTokens(ms) + ([CloseObject] + after);
    if ms.NoMembers? {
      assert ts == [CloseObject] + after && ts[1..] == after;
    } else {
      var more := MemberTokens(ms.rest) + ([CloseObject] + after);
      assert ts == [Text(ms.name)] + (Tokens(ms.value) + more);
      assert ts[1..] == Tokens(ms.value) + more;
      WalkValue(ms.value, more);
      WalkMembersOf(ms.rest, seen + {ms.name}, after);
      DistinctCons(ms.name, Names(ms.rest), seen);
    }
  }

  lemma DistinctCons(name: string, names: seq<string>, seen: set<string>)
    ensures (Distinct([name] + names) && forall n :: n in [name] + names ==> n !in seen)
       <==> (name !in seen && Distinct(names) && forall n :: n in names ==> n !in seen + {name})
  {
    var all := [name] + names;
    assert all[0] == name && forall i :: 0 <= i < |names| ==> all[i + 1] == names[i];
    if Distinct(all) {
      forall i, k | 0 <= i < k < |names| ensures names[i] != names[k] {
        assert all[i + 1] != all[k + 1];
      }
      forall n | n in names ensures n != name {
        var i :| 0 <= i < |names| && names[i] == n;
        assert all[0] != all[i + 1];
      }
    }
    if Distinct(names) && name !in names {
      forall i, k | 0 <= i < k < |all| ensures all[i] != all[k] {
        assert all[k] == names[k - 1];
      }
    }
  }

  /** On the tokens of any JSON value the walk consumes exactly that value, and
      succeeds if and only if no object in it repeats a member name. */
  method RejectDuplicates(v: Json, after: seq<Token>) returns (ok: bool, left: seq<Token>)
    requires WellFormed(v)
    ensures ok <==> NoRepeats(v)
    ensures ok ==> left == after
  {
    var d := new Decoder(Tokens(v) + after);
    WalkValue(v, after);
    ok := WalkForDuplicates(d);
    left := d.rest;
  }

  // ---------------------------------------------------------------------------
  // Why it matters

  datatype Turn = AtName(name: string) | AtIndex(index: nat)

  function FirstNamed(ms: Members, name: string): Option<Json> {
    if ms.NoMembers? then None else if ms.name == name then Some(ms.value) else FirstNamed(ms.rest, name)
  }

  function LastNamed(ms: Members, name: string): Option<Json> {
    if ms.NoMembers? then None
    else
      var later := LastNamed(ms.rest, name);
      if later.Some? then later else if ms.name == name then Some(ms.value) else None
  }

  function ItemAt(items: Items, index: nat): Option<Json> {
    if items.NoItems? then None else if index == 0 then Some(items.head) else ItemAt(items.tail, index - 1)
  }

  /** Following a path with either way of resolving a repeated name. */
  function Follow(v: Json, path: seq<Turn>, first: bool): Option<Json>
    decreases |path|
  {
    if path == [] then Some(v)
    else
      var next := if path[0].AtName? then

                    if !v.Object? then None
                    else if first then FirstNamed(v.members, path[0].name)
                    else LastNamed(v.members, path[0].name)
                  else if v.Array? then ItemAt(v.items, path[0].index) else None;
      if next.None? then None else Follow(next.value, path[1..], first)
  }

  lemma {:induction false} NamedOnce(ms: Members, name: string)
    requires Distinct(Names(ms)) && NoRepeatsInValues(ms)
    ensures FirstNamed(ms, name) == LastNamed(ms, name)
    ensures FirstNamed(ms, name).Some? ==> NoRepeats(FirstNamed(ms, name).value)
    ensures name !in Names(ms) ==> LastNamed(ms, name).None?
  {
    if ms.Member? {
      DistinctCons(ms.name, Names(ms.rest), {});
      NamedOnce(ms.rest, name);
    }
  }

  lemma {:induction false} ItemClean(items: Items, index: nat)
    requires NoRepeatsInItems(items)
    ensures ItemAt(items, index).Some? ==> NoRepeats(ItemAt(items, index).value)
  {
    if items.Item? && index > 0 {
      ItemClean(items.tail, index - 1);
    }
  }

  /** Without repeats, first-wins and last-wins readers see the same value at
      every path. */
  lemma {:induction false} ReadersAgree(v: Json, path: seq<Turn>)
    requires NoRepeats(v)
    ensures Follow(v, path, true) == Follow(v, path, false)
    decreases |path|
  {
    if path != [] {
      if path[0].AtName? && v.Object? {
        NamedOnce(v.members, path[0].name);
        var next := FirstNamed(v.members, path[0].name);
        if next.Some? {
          ReadersAgree(next.value, path[1..]);
        }
      } else if path[0].AtIndex? && v.Array? {
        ItemClean(v.items, path[0].index);
        var next := ItemAt(v.items, path[0].index);
        if next.Some? {
          ReadersAgree(next.value, path[1..]);
        }
      }
    }
  }
}
