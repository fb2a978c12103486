/** The decision rules of the registrar module functions, on values: the
    result arrays handed back to WHMCS, the nameserver slots, the DNS rows and
    the delete/update/add diff of a DNS save, the name and phone heuristic
    applied to a domain's contacts, the holders built from WHMCS details and
    the renewal decisions of a sync. */
module Reconcile {
  import opened Php
  import M = ClientModel

  // ---------------------------------------------------------------------
  // Results

  function ErrorResult(message: string): Value {
    Arr([(SKey("error"), Str(message))])
  }

  const SuccessResult: Value := Arr([(SKey("success"), Bool(true))])

  /** `array_filter([$ns1, $ns2, $ns3])`: the truthy values, each under its
      position in the list. */
  function Filtered(xs: seq<Value>): (r: Entries)
    ensures forall e :: e in r ==> e.0.IKey? && 0 <= e.0.n < |xs| && e.1 == xs[e.0.n] && Truthy(e.1)
    ensures forall i :: 0 <= i < |xs| && Truthy(xs[i]) ==> (IKey(i), xs[i]) in r
    ensures r == [] <==> forall i :: 0 <= i < |xs| ==> Empty(xs[i])
  {
    if xs == [] then []
    else
      var n := |xs| - 1;
      var rest := Filtered(xs[..n]);
      assert forall i :: 0 <= i < n ==> xs[..n][i] == xs[i];
      rest + (if Truthy(xs[n]) then [(IKey(n), xs[n])] else [])
  }

  /** Sets `$v['name'] = $x`; a value that is not an array becomes one. */
  function SetField(v: Value, name: string, x: Value): (r: Value)
    ensures r.Arr?
    ensures Get(r, name) == x
    ensures forall n :: n != name ==> Get(r, n) == Get(v, n)
  {
    Arr(Put(if v.Arr? then v.entries else [], SKey(name), x))
  }

  // ---------------------------------------------------------------------
  // Nameserver slots

  /** The slot a nameserver under key `k` fills: `ns` followed by the key plus
      one. A string key is used as it is (PHP's string increment is not
      modelled). */
  function SlotName(k: Key): string {
    match k
    case IKey(n) => "ns" + IntToString(n + 1)
    case SKey(s) => "ns" + s
  }

  /** The slots filled one nameserver after the other: each slot holds the
      `content` of its nameserver. */
  function NameserverSlots(nameservers: Entries): Entries {
    if nameservers == [] then []
    else
      var last := nameservers[|nameservers| - 1];
      Put(NameserverSlots(nameservers[..|nameservers| - 1]), SKey(SlotName(last.0)), Get(last.1, "content"))
  }

  /** What `neostrada_GetNameservers` reports for a fetched nameserver list. */
  function NameserversResult(nameservers: Value): Value {
    if nameservers == Null then ErrorResult("Could not get nameservers")
    else if Empty(nameservers) then SuccessResult
    else Arr(if nameservers.Arr? then NameserverSlots(nameservers.entries) else [])
  }

  lemma {:induction false} KeysOfIndex(es: Entries, k: Key)
    ensures k in KeysOf(es) <==> exists i :: 0 <= i < |es| && es[i].0 == k
  {
    if es != [] {
      KeysOfIndex(es[1..], k);
      if k in KeysOf(es[1..]) {
        var i :| 0 <= i < |es[1..]| && es[1..][i].0 == k;
        assert es[i + 1].0 == k;
      }
      assert forall i :: 1 <= i < |es| ==> es[i] == es[1..][i - 1];
    }
  }

  /** A list of n nameservers (keys 0 .. n-1) fills the slots ns1 .. nsn, in
      that order, each with the `content` of the nameserver at that position. */
  lemma {:induction false} SlotsOfList(nameservers: Entries)
    requires forall i :: 0 <= i < |nameservers| ==> nameservers[i].0 == IKey(i)
    ensures var r := NameserverSlots(nameservers);
      && |r| == |nameservers|
      && forall i :: 0 <= i < |r| ==> r[i] == (SKey("ns" + NatToString(i + 1)), Get(nameservers[i].1, "content"))
  {
    if nameservers != [] {
      var n := |nameservers| - 1;
      var init := nameservers[..n];
      assert forall i :: 0 <= i < n ==> init[i] == nameservers[i];
      SlotsOfList(init);
      var r0 := NameserverSlots(init);
      var k := SKey("ns" + NatToString(n + 1));
      var c := Get(nameservers[n].1, "content");
      assert NameserverSlots(nameservers) == Put(r0, k, c);
      SlotIsNew(r0, n);
      var r := NameserverSlots(nameservers);
      assert r == r0 + [(k, c)];
      forall i | 0 <= i < |r|
        ensures r[i] == (SKey("ns" + NatToString(i + 1)), Get(nameservers[i].1, "content"))
      {
        if i < n {
          assert r[i] == r0[i];
          assert init[i] == nameservers[i];
        }
      }
    }
  }

  /** Slot n+1 is not among slots 1 .. n. */
  lemma SlotIsNew(slots: Entries, n: nat)
    requires |slots| == n
    requires forall i :: 0 <= i < n ==> slots[i].0 == SKey("ns" + NatToString(i + 1))
    ensures SKey("ns" + NatToString(n + 1)) !in KeysOf(slots)
  {
    var k := SKey("ns" + NatToString(n + 1));
    if k in KeysOf(slots) {
      KeysOfIndex(slots, k);
      var j :| 0 <= j < n && slots[j].0 == k;
      assert ("ns" + NatToString(j + 1))[2..] == NatToString(j + 1);
      assert ("ns" + NatToString(n + 1))[2..] == NatToString(n + 1);
      NatToStringInjective(j + 1, n + 1);
    }
  }

  // ---------------------------------------------------------------------
  // DNS rows

  /** One DNS record as WHMCS lists it. */
  function WhmcsRow(record: Value): Value {
    Arr([(SKey("recid"), Get(record, "id")),
         (SKey("hostname"), Get(record, "name")),
         (SKey("type"), Get(record, "type")),
         (SKey("address"), Get(record, "content")),
         (SKey("priority"), Get(record, "prio"))])
  }

  /** What `neostrada_GetDNS` reports for the fetched records. */
  function DnsResult(records: Value): Value {
    if records == Null then ErrorResult("Could not fetch records")
    else if Empty(records) then Arr([])
    else
      var rs := ValuesOf(records);
      ListOf(seq(|rs|, i requires 0 <= i < |rs| => WhmcsRow(rs[i])))
  }

  /** A row carries the record's id as `recid` and has no `id` of its own. */
  lemma RowFields(record: Value)
    ensures var row := WhmcsRow(record);
      && Get(row, "recid") == Get(record, "id")
      && Get(row, "hostname") == Get(record, "name")
      && Get(row, "address") == Get(record, "content")
      && Get(row, "priority") == Get(record, "prio")
      && Get(row, "id") == Null
  {
    var es := WhmcsRow(record).entries;
    LookupFindsEntry(es, 0);
    LookupFindsEntry(es, 1);
    LookupFindsEntry(es, 3);
    LookupFindsEntry(es, 4);
    LookupMissing(es, SKey("id"));
  }

  // ---------------------------------------------------------------------
  // The DNS diff of a save

  /** A desired record with a record id, a host name and an address updates
      that record. */
  predicate Updates(record: Value) {
    Truthy(Get(record, "recid")) && Truthy(Get(record, "hostname")) && Truthy(Get(record, "address"))
  }

  /** A desired record without a record id is added. */
  predicate Adds(record: Value) {
    Empty(Get(record, "recid"))
  }

  /** The priority sent with an update: '' in place of 'N/A'. */
  function Prio(priority: Value): (p: Value)
    ensures priority == Str("N/A") ==> p == Str("")
    ensures priority != Str("N/A") ==> p == priority
  {
    if priority != Str("N/A") then priority else Str("")
  }

  function UpdateOp(record: Value): Value {
    Arr([(SKey("record_id"), Get(record, "recid")),
         (SKey("content"), Get(record, "address")),
         (SKey("prio"), Prio(Get(record, "priority")))])
  }

  function AddOp(record: Value): Value {
    Arr([(SKey("name"), Get(record, "hostname")),
         (SKey("type"), Get(record, "type")),
         (SKey("content"), Get(record, "address")),
         (SKey("prio"), Get(record, "priority"))])
  }

  /** The key a record is held under in the delete set: its `id`. */
  function IdKey(record: Value): Key {
    KeyOf(Get(record, "id"))
  }

  /** The delete set before the desired records are seen: every remote id,
      under itself. */
  function DeleteSeed(remote: seq<Value>): Entries {
    if remote == [] then []
    else
      var last := remote[|remote| - 1];
      Put(DeleteSeed(remote[..|remote| - 1]), IdKey(last), Get(last, "id"))
  }

  datatype Batches = Batches(deletes: Entries, updates: seq<Value>, adds: seq<Value>)

  /** One desired record: an update drops its `id` from the delete set. A
      record yields at most one op, and one with a record id but no host name
      or no address yields none. */
  function Step(b: Batches, record: Value): (r: Batches)
    ensures |r.updates| + |r.adds| <= |b.updates| + |b.adds| + 1
    ensures Truthy(Get(record, "recid")) && (Empty(Get(record, "hostname")) || Empty(Get(record, "address"))) ==> r == b
  {
    var b1 := if Updates(record) then Batches(Remove(b.deletes, IdKey(record)), b.updates + [UpdateOp(record)], b.adds) else b;
    if Adds(record) then b1.(adds := b1.adds + [AddOp(record)]) else b1
  }

  /** The three batches after every desired record has been seen. */
  function Diff(seed: Entries, desired: seq<Value>): Batches {
    if desired == [] then Batches(seed, [], [])
    else Step(Diff(seed, desired[..|desired| - 1]), desired[|desired| - 1])
  }

  /** The update ops, one per updating record in order (reference definition). */
  function UpdatesOf(desired: seq<Value>): seq<Value> {
    if desired == [] then []
    else (if Updates(desired[0]) then [UpdateOp(desired[0])] else []) + UpdatesOf(desired[1..])
  }

  /** The add ops, one per adding record in order (reference definition). */
  function AddsOf(desired: seq<Value>): seq<Value> {
    if desired == [] then []
    else (if Adds(desired[0]) then [AddOp(desired[0])] else []) + AddsOf(desired[1..])
  }

  /** The keys an update removes from the delete set. */
  function RemovedKeys(desired: seq<Value>): set<Key> {
    set i | 0 <= i < |desired| && Updates(desired[i]) :: IdKey(desired[i])
  }

  lemma {:induction false} OpsOfAppend(desired: seq<Value>, record: Value)
    ensures UpdatesOf(desired + [record]) == UpdatesOf(desired) + (if Updates(record) then [UpdateOp(record)] else [])
    ensures AddsOf(desired + [record]) == AddsOf(desired) + (if Adds(record) then [AddOp(record)] else [])
  {
    if desired != [] {
      assert (desired + [record])[1..] == desired[1..] + [record];
      OpsOfAppend(desired[1..], record);
    }
  }

  /** The batches of a save: one update op per record that updates and one add
      op per record that adds, in the order of the desired records. */
  lemma {:induction false} DiffOps(seed: Entries, desired: seq<Value>)
    ensures Diff(seed, desired).updates == UpdatesOf(desired)
    ensures Diff(seed, desired).adds == AddsOf(desired)
  {
    if desired != [] {
      var n := |desired| - 1;
      DiffOps(seed, desired[..n]);
      assert desired[..n] + [desired[n]] == desired;
      OpsOfAppend(desired[..n], desired[n]);
    }
  }

  /** The delete set of a save is the seed less the `id` of every updating
      record, each surviving key still holding its seeded id. */
  lemma {:induction false} DiffDeletes(seed: Entries, desired: seq<Value>)
    ensures KeysOf(Diff(seed, desired).deletes) == KeysOf(seed) - RemovedKeys(desired)
    ensures forall k :: k !in RemovedKeys(desired) ==> Lookup(Diff(seed, desired).deletes, k) == Lookup(seed, k)
  {
    if desired != [] {
      var n := |desired| - 1;
      var init := desired[..n];
      DiffDeletes(seed, init);
      RemovedKeysLast(desired);
    }
  }

  lemma RemovedKeysLast(desired: seq<Value>)
    requires desired != []
    ensures var n := |desired| - 1;
      RemovedKeys(desired) == RemovedKeys(desired[..n]) + (if Updates(desired[n]) then {IdKey(desired[n])} else {})
  {
    var n := |desired| - 1;
    var init := desired[..n];
    forall k | k in RemovedKeys(desired)
      ensures k in RemovedKeys(init) || (Updates(desired[n]) && k == IdKey(desired[n]))
    {
      var i :| 0 <= i < |desired| && Updates(desired[i]) && IdKey(desired[i]) == k;
      if i < n {
        assert init[i] == desired[i];
      }
    }
    forall k | k in RemovedKeys(init)
      ensures k in RemovedKeys(desired)
    {
      var i :| 0 <= i < n && Updates(init[i]) && IdKey(init[i]) == k;
      assert desired[i] == init[i];
    }
  }

  /** A save sends at most one op per desired record. */
  lemma {:induction false} AtMostOneOp(seed: Entries, desired: seq<Value>)
    ensures var b := Diff(seed, desired); |b.updates| + |b.adds| <= |desired|
  {
    if desired != [] {
      AtMostOneOp(seed, desired[..|desired| - 1]);
    }
  }

  /** Every entry of the delete set is an id held under itself. */
  predicate KeyedById(es: Entries) {
    forall i :: 0 <= i < |es| ==> es[i].0 == KeyOf(es[i].1)
  }

  lemma {:induction false} PutKeeps(es: Entries, x: Value)
    requires KeyedById(es)
    ensures KeyedById(Put(es, KeyOf(x), x))
  {
    if es != [] && es[0].0 != KeyOf(x) {
      assert KeyedById(es[1..]) by {
        assert forall i :: 0 <= i < |es| - 1 ==> es[1..][i] == es[i + 1];
      }
      PutKeeps(es[1..], x);
    }
  }

  /** The seeded delete set holds every id under itself. */
  lemma {:induction false} DeleteSeedKeyed(remote: seq<Value>)
    ensures KeyedById(DeleteSeed(remote))
  {
    if remote != [] {
      var n := |remote| - 1;
      DeleteSeedKeyed(remote[..n]);
      PutKeeps(DeleteSeed(remote[..n]), Get(remote[n], "id"));
    }
  }

  /** The ids of the remote records, as delete-set keys. */
  function IdKeys(remote: seq<Value>): set<Key> {
    set i | 0 <= i < |remote| :: IdKey(remote[i])
  }

  /** The seeded delete set holds exactly the ids of the remote records. */
  lemma {:induction false} DeleteSeedKeys(remote: seq<Value>)
    ensures KeysOf(DeleteSeed(remote)) == IdKeys(remote)
  {
    if remote != [] {
      var n := |remote| - 1;
      var init := remote[..n];
      DeleteSeedKeys(init);
      PutKeys(DeleteSeed(init), IdKey(remote[n]), Get(remote[n], "id"));
      assert DeleteSeed(remote) == Put(DeleteSeed(init), IdKey(remote[n]), Get(remote[n], "id"));
      assert KeysOf(DeleteSeed(remote)) == IdKeys(init) + {IdKey(remote[n])};
      IdKeysLast(remote);
    }
  }

  lemma IdKeysLast(remote: seq<Value>)
    requires remote != []
    ensures IdKeys(remote) == IdKeys(remote[..|remote| - 1]) + {IdKey(remote[|remote| - 1])}
  {
    var n := |remote| - 1;
    var init := remote[..n];
    forall k | k in IdKeys(remote)
      ensures k in IdKeys(init) + {IdKey(remote[n])}
    {
      var i :| 0 <= i < |remote| && IdKey(remote[i]) == k;
      if i < n {
        assert init[i] == remote[i];
      }
    }
    forall k | k in IdKeys(init)
      ensures k in IdKeys(remote)
    {
      var i :| 0 <= i < n && IdKey(init[i]) == k;
      assert remote[i] == init[i];
    }
  }

  /** Records saved back as `neostrada_GetDNS` listed them carry no `id`, so
      an update removes only the key '' from the delete set: every remote
      record with a non-empty id is both updated and deleted. */
  lemma ResavedRecordsStayDeleted(seed: Entries, records: seq<Value>)
    ensures var rows := seq(|records|, i requires 0 <= i < |records| => WhmcsRow(records[i]));
      KeysOf(Diff(seed, rows).deletes) == KeysOf(seed) - (if exists i :: 0 <= i < |rows| && Updates(rows[i]) then {SKey("")} else {})
  {
    var rows := seq(|records|, i requires 0 <= i < |records| => WhmcsRow(records[i]));
    DiffDeletes(seed, rows);
    forall i | 0 <= i < |rows|
      ensures IdKey(rows[i]) == SKey("")
    {
      RowFields(records[i]);
    }
  }

  // ---------------------------------------------------------------------
  // Contacts: the name and phone heuristic

  /** The name still to be explained and the contact being completed. */
  datatype Scan = Scan(name: string, contact: Value)

  /** The phone number without its country code: the text after the first
      '.', unless there is none or it is empty or "0". */
  function StripCountryCode(phone: Value): (r: Value)
    ensures '.' !in StrVal(phone) ==> r == phone
    ensures r != phone ==> var p := StrVal(phone);
      && r.Str? && Truthy(r) && |r.s| < |p|
      && p[|p| - |r.s| - 1] == '.' && p[|p| - |r.s|..] == r.s && '.' !in p[..|p| - |r.s| - 1]
  {
    var rest := SplitFirst(StrVal(phone), '.').1;
    if rest.Some? && Truthy(Str(rest.value)) then Str(rest.value) else phone
  }

  /** A holder whose first name occurs in the name still to be explained
      gives the contact that first name, and it is removed from the name. */
  function TakeFirstName(st: Scan, holder: Value): (r: Scan)
    ensures |r.name| <= |st.name|
    ensures forall n :: n != "firstname" ==> Get(r.contact, n) == Get(st.contact, n)
    ensures Contains(st.name, StrVal(Get(holder, "firstname"))) ==> Get(r.contact, "firstname") == Get(holder, "firstname")
    ensures var first := StrVal(Get(holder, "firstname"));
      Contains(st.name, first) ==> r.name == Trim(RemoveCI(st.name, first), Whitespace)
    ensures !Contains(st.name, StrVal(Get(holder, "firstname"))) ==> r == st
  {
    var first := StrVal(Get(holder, "firstname"));
    if Contains(st.name, first) then
      Scan(Trim(RemoveCI(st.name, first), Whitespace), SetField(st.contact, "firstname", Get(holder, "firstname")))
    else st
  }

  /** The last-name test: the shorter of the name and the last name occurs in
      the longer one. */
  predicate LastNameFound(name: string, last: string) {
    if |name| < |last| then Contains(last, name) else Contains(name, last)
  }

  /** A holder whose last name and the rest of the name contain one another
      (the shorter in the longer) gives the contact that last name. */
  function TakeLastName(st: Scan, holder: Value): (r: Scan)
    ensures r.name == st.name
    ensures forall n :: n != "lastname" ==> Get(r.contact, n) == Get(st.contact, n)
    ensures LastNameFound(st.name, StrVal(Get(holder, "lastname"))) ==> Get(r.contact, "lastname") == Get(holder, "lastname")
    ensures !LastNameFound(st.name, StrVal(Get(holder, "lastname"))) ==> r == st
  {
    if LastNameFound(st.name, StrVal(Get(holder, "lastname"))) then
      st.(contact := SetField(st.contact, "lastname", Get(holder, "lastname")))
    else st
  }

  /** A non-empty phone number loses its country code. */
  function StripPhone(contact: Value): (r: Value)
    ensures forall n :: n != "phone" ==> Get(r, n) == Get(contact, n)
    ensures var p := Get(contact, "phone"); Get(r, "phone") == if Truthy(p) then StripCountryCode(p) else p
  {
    var phone := Get(contact, "phone");
    if Truthy(phone) then SetField(contact, "phone", StripCountryCode(phone)) else contact
  }

  /** One holder of the account seen by `getUsableContact`: the first name is
      taken when it occurs in the name, the last name when it and the name
      left after removing the first name contain one another. */
  function ScanStep(st: Scan, holder: Value): (r: Scan)
    ensures |r.name| <= |st.name|
  {
    var named := TakeLastName(TakeFirstName(st, holder), holder);
    Scan(named.name, StripPhone(named.contact))
  }

  /** One holder touches no field but the names and the phone, and a truthy
      phone loses its country code. */
  lemma ScanStepFields(st: Scan, holder: Value)
    ensures var r := ScanStep(st, holder);
      forall n :: n != "firstname" && n != "lastname" && n != "phone" ==> Get(r.contact, n) == Get(st.contact, n)
    ensures var r := ScanStep(st, holder);
      var p := Get(st.contact, "phone");
      Get(r.contact, "phone") == if Truthy(p) then StripCountryCode(p) else p
  {
    var named := TakeLastName(TakeFirstName(st, holder), holder);
    assert Get(named.contact, "phone") == Get(st.contact, "phone");
    assert ScanStep(st, holder) == Scan(named.name, StripPhone(named.contact));
  }

  /** When `getUsableContact` takes each name from a holder: the first name
      exactly when it occurs in the name, the last name exactly when it and
      the name left after removing the first name contain one another. */
  lemma ScanStepNames(st: Scan, holder: Value)
    ensures var r := ScanStep(st, holder);
      var first := StrVal(Get(holder, "firstname"));
      && (Contains(st.name, first) ==> Get(r.contact, "firstname") == Get(holder, "firstname"))
      && (Contains(st.name, first) ==> r.name == Trim(RemoveCI(st.name, first), Whitespace))
      && (!Contains(st.name, first) ==> r.name == st.name && Get(r.contact, "firstname") == Get(st.contact, "firstname"))
    ensures var r := ScanStep(st, holder);
      var last := StrVal(Get(holder, "lastname"));
      && (LastNameFound(r.name, last) ==> Get(r.contact, "lastname") == Get(holder, "lastname"))
      && (!LastNameFound(r.name, last) ==> Get(r.contact, "lastname") == Get(st.contact, "lastname"))
  {
    var taken := TakeFirstName(st, holder);
    var named := TakeLastName(taken, holder);
    assert ScanStep(st, holder) == Scan(named.name, StripPhone(named.contact));
  }

  function ScanAll(start: Scan, holders: seq<Value>): Scan {
    if holders == [] then start else ScanStep(ScanAll(start, holders[..|holders| - 1]), holders[|holders| - 1])
  }

  /** Where a contact's scan starts: its full name, and the contact itself. */
  function ScanStart(contact: Value): Scan {
    Scan(StrVal(Get(contact, "name")), contact)
  }

  /** The country code stripped `n` times over. */
  function StripTimes(phone: Value, n: nat): Value {
    if n == 0 then phone
    else
      var p := StripTimes(phone, n - 1);
      if Truthy(p) then StripCountryCode(p) else p
  }

  /** The phone loses one country code per holder on the account, whatever
      the names. */
  lemma {:induction false} PhoneStrippedPerHolder(start: Scan, holders: seq<Value>)
    ensures Get(ScanAll(start, holders).contact, "phone") == StripTimes(Get(start.contact, "phone"), |holders|)
  {
    if holders != [] {
      PhoneStrippedPerHolder(start, holders[..|holders| - 1]);
      ScanStepFields(ScanAll(start, holders[..|holders| - 1]), holders[|holders| - 1]);
    }
  }

  /** The first and last name end as they were or as those of some holder. */
  lemma {:induction false} NamesFromHolders(start: Scan, holders: seq<Value>)
    ensures var c := ScanAll(start, holders).contact;
      && (Get(c, "firstname") == Get(start.contact, "firstname")
          || exists i :: 0 <= i < |holders| && Get(c, "firstname") == Get(holders[i], "firstname"))
      && (Get(c, "lastname") == Get(start.contact, "lastname")
          || exists i :: 0 <= i < |holders| && Get(c, "lastname") == Get(holders[i], "lastname"))
  {
    if holders != [] {
      var n := |holders| - 1;
      NamesFromHolders(start, holders[..n]);
      var c := ScanAll(start, holders).contact;
      var c0 := ScanAll(start, holders[..n]).contact;
      ScanStepNames(ScanAll(start, holders[..n]), holders[n]);
      if Get(c, "firstname") != Get(holders[n], "firstname") && Get(c0, "firstname") != Get(start.contact, "firstname") {
        var i :| 0 <= i < n && Get(c0, "firstname") == Get(holders[..n][i], "firstname");
        assert holders[..n][i] == holders[i];
      }
      if Get(c, "lastname") != Get(holders[n], "lastname") && Get(c0, "lastname") != Get(start.contact, "lastname") {
        var i :| 0 <= i < n && Get(c0, "lastname") == Get(holders[..n][i], "lastname");
        assert holders[..n][i] == holders[i];
      }
    }
  }

  /** A number written as a dot-free country code, a dot and a usable rest
      loses the country code and the dot. */
  lemma StripAfterFirstDot(code: string, rest: string)
    requires '.' !in code && rest != "" && rest != "0"
    ensures StripCountryCode(Str(code + "." + rest)) == Str(rest)
  {
    SplitFirstAt(code, '.', rest);
  }

  // ---------------------------------------------------------------------
  // Holders from WHMCS details

  /** The seven identity fields from a WHMCS contact block. */
  function WhmcsIdentity(w: Value): Value {
    Arr([(SKey("company"), Get(w, "Company Name")),
         (SKey("firstname"), Get(w, "First Name")),
         (SKey("lastname"), Get(w, "Last Name")),
         (SKey("street"), Get(w, "Address 1")),
         (SKey("zipcode"), Get(w, "Postcode")),
         (SKey("city"), Get(w, "City")),
         (SKey("email"), Get(w, "Email Address"))])
  }

  /** `getOrCreateHolder`'s phone number: the text after the first '.', or ''. */
  function PhoneAfterDot(phone: Value): (r: Value)
    ensures r.Str?
    ensures '.' !in StrVal(phone) ==> r == Str("")
    ensures '.' in StrVal(phone) ==> var p := StrVal(phone);
      |r.s| < |p| && p[|p| - |r.s| - 1] == '.' && p[|p| - |r.s|..] == r.s && '.' !in p[..|p| - |r.s| - 1]
  {
    var rest := SplitFirst(StrVal(phone), '.').1;
    Str(if rest.Some? then rest.value else "")
  }

  /** The holder `getOrCreateHolder` creates: the identity, then the phone
      number and the country code. */
  function CreationHolder(w: Value): Entries {
    WhmcsIdentity(w).entries
      + [(SKey("phone_number"), PhoneAfterDot(Get(w, "Phone Number"))), (SKey("country_code"), Get(w, "Country"))]
  }

  /** The registration holder of `neostrada_RegisterDomain` and
      `neostrada_TransferDomain`, from the order parameters. */
  function RegistrationIdentity(params: Value): Value {
    Arr([(SKey("company"), Get(params, "companyname")),
         (SKey("firstname"), Get(params, "firstname")),
         (SKey("lastname"), Get(params, "lastname")),
         (SKey("street"), Get(params, "address1")),
         (SKey("zipcode"), Get(params, "postcode")),
         (SKey("city"), Get(params, "city")),
         (SKey("email"), Get(params, "email"))])
  }

  function RegistrationHolder(params: Value): Entries {
    RegistrationIdentity(params).entries
      + [(SKey("phone_number"), Get(params, "phonenumber")), (SKey("country_code"), Get(params, "countrycode"))]
  }

  /** The seven fields of an identity, looked up in a holder that starts with them. */
  lemma {:induction false} IdentityPrefix(id: seq<(Key, Value)>, extra: Entries)
    requires |id| == 7
    requires id[0].0 == SKey("company") && id[1].0 == SKey("firstname") && id[2].0 == SKey("lastname")
    requires id[3].0 == SKey("street") && id[4].0 == SKey("zipcode") && id[5].0 == SKey("city") && id[6].0 == SKey("email")
    ensures M.Identity(Arr(id + extra)) == Arr(id)
  {
    var h := id + extra;
    forall i | 0 <= i < 7
      ensures Lookup(h, h[i].0) == id[i].1
    {
      LookupFindsEntry(h, i);
    }
  }

  // ---------------------------------------------------------------------
  // Sync

  /** PHP's `$v == 0`: null, false, 0 and "0" (other numeric spellings of
      zero are not modelled); arrays and other strings never. */
  predicate LooseZero(v: Value) {
    match v
    case Null => true
    case Bool(b) => !b
    case Int(i) => i == 0
    case Str(s) => s == "0"
    case Arr(_) => false
  }

  /** A parsed `paid_until`: the instant it names, and its `Y-m-d` form. */
  datatype Expiry = Expiry(at: int, day: string)

  /** What a sync does about renewal. */
  datatype Renewal = Keep | Cancel | Reactivate

  /** Auto-renew off on an active domain cancels it; auto-renew on for an
      inactive domain reactivates it. */
  function RenewalAction(autoRenew: bool, active: bool): (r: Renewal)
    ensures r == Cancel <==> !autoRenew && active
    ensures r == Reactivate <==> autoRenew && !active
    ensures r == Keep <==> autoRenew == active
  {
    if !autoRenew && active then Cancel
    else if autoRenew && !active then Reactivate
    else Keep
  }

  /** The report of a sync that got through. */
  function SyncReport(expiry: Expiry, active: bool, expired: bool): Value {
    Arr([(SKey("expirydate"), Str(expiry.day)),
         (SKey("active"), Bool(active)),
         (SKey("expired"), Bool(expired)),
         (SKey("transferredAway"), Bool(false))])
  }
}
