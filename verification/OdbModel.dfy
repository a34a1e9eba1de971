// The generated persistence code for User: one shared image feeding the insert, update and
// select bindings, each refreshed lazily by comparing version numbers
// (app/Entities/odb/User-odb.cxx).
module OdbModel {
  import opened Common
  import opened Entities

  // The three text columns in their fixed order.
  type Row = r: seq<string> | |r| == 3 witness ["", "", ""]

  function RowOf(u: User): Row { [u.username, u.passwordHash, u.salt] }

  // ---- memory: buffers and what they hold ----

  // details::buffer: its storage and capacity. A cell no one wrote is None.
  datatype Buffer = Buffer(addr: nat, capacity: nat)
  datatype Column = Column(value: Buffer, size: nat)
  datatype Mem = Mem(heap: map<nat, seq<Option<char>>>, cols: seq<Column>, next: nat)

  function Cells(v: string): seq<Option<char>> { seq(|v|, i requires 0 <= i < |v| => Some(v[i])) }

  function Blank(n: nat): seq<Option<char>> { seq(n, _ => None) }

  // buffer.capacity(n): nothing unless it grows; then new storage, old storage freed.
  function Reserve(m: Mem, k: nat, n: nat): Mem
    requires k < |m.cols|
  {
    var b := m.cols[k].value;
    if n <= b.capacity then m else
      m.(heap := (m.heap - {b.addr})[m.next := Blank(n)],
         cols := m.cols[k := m.cols[k].(value := Buffer(m.next, n))],
         next := m.next + 1)
  }

  // Copy the start of v to an address, as much as fits in `capacity` cells.
  function CopyTo(heap: map<nat, seq<Option<char>>>, addr: nat, capacity: nat, v: string): map<nat, seq<Option<char>>> {
    var n := if |v| <= capacity then |v| else capacity;
    if addr in heap && n <= |heap[addr]| then heap[addr := Cells(v[..n]) + heap[addr][n..]] else heap
  }

  // value_traits<std::string>::set_image.
  function SetColumn(m: Mem, k: nat, v: string): Mem
    requires k < |m.cols|
  {
    var r := Reserve(m, k, |v|);
    r.(heap := CopyTo(r.heap, r.cols[k].value.addr, r.cols[k].value.capacity, v),
       cols := r.cols[k := r.cols[k].(size := |v|)])
  }

  // Reading `size` cells at an address: None when that storage is gone, too short or unwritten.
  function ReadText(heap: map<nat, seq<Option<char>>>, addr: nat, size: nat): Option<string> {
    if addr in heap && size <= |heap[addr]| && (forall i :: 0 <= i < size ==> heap[addr][i].Some?)
    then Some(seq(size, i requires 0 <= i < size => heap[addr][i].value))
    else None
  }

  ghost predicate MemOk(m: Mem) {
    && |m.cols| == 3
    && (forall a :: a in m.heap ==> a < m.next)
    && (forall k :: 0 <= k < 3 ==>
          m.cols[k].value.addr in m.heap && |m.heap[m.cols[k].value.addr]| == m.cols[k].value.capacity)
    && (forall j, k :: 0 <= j < k < 3 ==> m.cols[j].value.addr != m.cols[k].value.addr)
  }

  // Column k holds the text v.
  ghost predicate Holds(m: Mem, k: nat, v: string)
    requires k < |m.cols|
  {
    m.cols[k].size == |v| && ReadText(m.heap, m.cols[k].value.addr, |v|) == Some(v)
  }

  // The same column in two memories: descriptor and contents.
  ghost predicate SameColumn(a: Mem, b: Mem, k: nat)
    requires k < |a.cols| && k < |b.cols|
  {
    && a.cols[k] == b.cols[k]
    && a.cols[k].value.addr in a.heap && a.cols[k].value.addr in b.heap
    && a.heap[a.cols[k].value.addr] == b.heap[b.cols[k].value.addr]
  }

  lemma ReserveKeeps(m: Mem, k: nat, n: nat)
    requires MemOk(m) && k < 3
    ensures var r := Reserve(m, k, n);
      && MemOk(r) && r.cols[k].size == m.cols[k].size
      && n <= r.cols[k].value.capacity && (n <= m.cols[k].value.capacity ==> r == m)
      && (n > m.cols[k].value.capacity ==> r.cols[k].value.capacity == n && r.cols[k].value.addr !in m.heap)
      && (r.cols[k].value == m.cols[k].value <==> r.cols[k].value.capacity == m.cols[k].value.capacity)
      && forall j :: 0 <= j < 3 && j != k ==> SameColumn(m, r, j)
  {
  }

  lemma CopyReads(heap: map<nat, seq<Option<char>>>, addr: nat, capacity: nat, v: string)
    requires addr in heap && |v| <= capacity == |heap[addr]|
    ensures var h := CopyTo(heap, addr, capacity, v);
      h.Keys == heap.Keys && |h[addr]| == |heap[addr]| && ReadText(h, addr, |v|) == Some(v)
  {
    var h := CopyTo(heap, addr, capacity, v);
    assert v[..|v|] == v;
    assert forall i :: 0 <= i < |v| ==> h[addr][i] == Some(v[i]);
    assert ReadText(h, addr, |v|).value == v;
  }

  lemma SetColumnKeeps(m: Mem, k: nat, v: string)
    requires MemOk(m) && k < 3
    ensures var s := SetColumn(m, k, v);
      && MemOk(s) && Holds(s, k, v)
      && (s.cols[k].value.capacity == m.cols[k].value.capacity <==> |v| <= m.cols[k].value.capacity)
      && (s.cols[k].value == m.cols[k].value <==> s.cols[k].value.capacity == m.cols[k].value.capacity)
      && forall j :: 0 <= j < 3 && j != k ==> SameColumn(m, s, j)
  {
    ReserveKeeps(m, k, |v|);
    var r := Reserve(m, k, |v|);
    CopyReads(r.heap, r.cols[k].value.addr, r.cols[k].value.capacity, v);
  }
}
