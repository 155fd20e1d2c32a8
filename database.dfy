/** The savers of `database.py`: the save-mode check, `data_save` (loading the record
    files, then one of three replace-all writes) and the two graph builders. The
    databases are in-memory stores: MongoDB collections, MySQL tables, and a Neo4j
    graph of nodes and edges. */
module Savers {
  import opened Base
  import opened Records
  import opened Text

  // ---------------------------------------------------------------- save modes

  datatype SaveMode = MongoDb | Neo4j | MySql

  /** `BaseSaver.SAVE_MODES`. */
  const SaveModes := ["mongodb", "neo4j", "mysql"]

  const ModeError := RuntimeError("存储模式指定有误，请输入mongodb、neo4j或者mysql")

  function ModeName(m: SaveMode): (s: string)
    ensures s in SaveModes
  {
    match m
    case MongoDb => "mongodb"
    case Neo4j => "neo4j"
    case MySql => "mysql"
  }

  /** The check of `BaseSaver.__init__`: RuntimeError for a mode outside `SAVE_MODES`,
      and otherwise the mode that name stands for. */
  function ParseMode(s: string): (r: Result<SaveMode>)
    ensures r.Err? <==> s !in SaveModes
    ensures r.Err? ==> r.error == ModeError
    ensures r.Ok? ==> ModeName(r.value) == s
  {
    if s == "mongodb" then Ok(MongoDb)
    else if s == "neo4j" then Ok(Neo4j)
    else if s == "mysql" then Ok(MySql)
    else Err(ModeError)
  }

  /** Which class the saver is: the base class or one of its two subclasses. */
  datatype SaverClass = BaseSaver | MafengwoSaver | CtripSaver

  /** The columns `RESORT_SQL` creates, in its order. */
  const ResortColumns := ["poi_id", "resortName", "areaName", "areaId", "address", "lat", "lng",
                          "introduction", "openInfo", "ticketsInfo", "transInfo", "tel",
                          "item_site", "item_time", "payAbstracts", "source", "timeStamp"]

  /** A table template: `CREATE TABLE IF NOT EXISTS {0}(...)` with its columns, or a
      text of white space only (`HOTEL_SQL`). */
  datatype Ddl = CreateTable(columns: seq<string>) | Blank

  /** `self.create_sql` as the constructors leave it: set by the subclasses in mysql
      mode only; `None` where the attribute does not exist. */
  function CreateSqlOf(cls: SaverClass, mode: SaveMode): Option<Ddl>
  {
    if mode != MySql then None
    else match cls
      case BaseSaver => None
      case MafengwoSaver => Some(CreateTable(ResortColumns))
      case CtripSaver => Some(Blank)
  }

  // ---------------------------------------------------------------- record files

  /** `os.path.join(a, b)` on POSIX: an absolute `b` replaces `a`; a separator is
      put between them unless `a` is empty or already ends with one. */
  function PathJoin(a: string, b: string): string
  {
    if |b| > 0 && b[0] == '/' then b
    else if a == [] || a[|a| - 1] == '/' then a + b
    else a + "/" + b
  }

  /** `file_path` of the load loop. */
  function PathOf(savePath: string, name: string): string
  {
    PathJoin(savePath, name + ".json")
  }

  function MissingError(path: string): Error
  {
    RuntimeError("数据文件" + path + "不存在，请检查数据！")
  }

  /** The records read so far, and the path of the file that was missing, if any. */
  datatype Loaded = Loaded(data: seq<Record>, missing: Option<string>)

  /** The load loop of `data_save` over `files` (path to the record list the file
      holds): each file's records are appended in turn, and the first missing file
      stops the loop. */
  function Load(files: map<string, seq<Record>>, savePath: string, names: seq<string>): Loaded
    decreases |names|
  {
    if names == [] then Loaded([], None)
    else
      var path := PathOf(savePath, names[0]);
      if path !in files then Loaded([], Some(path))
      else
        var rest := Load(files, savePath, names[1..]);
        Loaded(files[path] + rest.data, rest.missing)
  }

  /** Loading `a + b` is loading `a`, then loading `b`, when no file of `a` is missing. */
  lemma {:induction false} LoadAppend(files: map<string, seq<Record>>, savePath: string, a: seq<string>, b: seq<string>)
    requires Load(files, savePath, a).missing.None?
    ensures Load(files, savePath, a + b) ==
            Loaded(Load(files, savePath, a).data + Load(files, savePath, b).data, Load(files, savePath, b).missing)
    decreases |a|
  {
    if a == [] {
      assert a + b == b;
    } else {
      assert (a + b)[0] == a[0] && (a + b)[1..] == a[1..] + b;
      LoadAppend(files, savePath, a[1..], b);
      AppendAssoc(files[PathOf(savePath, a[0])], Load(files, savePath, a[1..]).data, Load(files, savePath, b).data);
    }
  }

  /** One more name: its records follow those already read, or its path is reported
      missing and nothing is added. */
  lemma LoadSnoc(files: map<string, seq<Record>>, savePath: string, a: seq<string>, name: string)
    requires Load(files, savePath, a).missing.None?
    ensures var path := PathOf(savePath, name);
      Load(files, savePath, a + [name]) ==
      if path in files then Loaded(Load(files, savePath, a).data + files[path], None)
      else Loaded(Load(files, savePath, a).data, Some(path))
  {
    LoadAppend(files, savePath, a, [name]);
    assert [name][1..] == [];
  }

  /** A file is reported missing exactly when one of the named files is, and it is
      the first of them. */
  lemma {:induction false} LoadMissing(files: map<string, seq<Record>>, savePath: string, names: seq<string>)
    ensures Load(files, savePath, names).missing.Some? <==>
            exists i :: 0 <= i < |names| && PathOf(savePath, names[i]) !in files
    ensures Load(files, savePath, names).missing.Some? ==>
            exists i :: 0 <= i < |names| && Load(files, savePath, names).missing.value == PathOf(savePath, names[i]) &&
              PathOf(savePath, names[i]) !in files &&
              forall j :: 0 <= j < i ==> PathOf(savePath, names[j]) in files
    decreases |names|
  {
    if names != [] {
      var path := PathOf(savePath, names[0]);
      if path in files {
        LoadMissing(files, savePath, names[1..]);
        forall i | 0 <= i < |names| - 1 ensures names[1..][i] == names[i + 1] {
        }
        if Load(files, savePath, names[1..]).missing.Some? {
          var i :| 0 <= i < |names[1..]| && Load(files, savePath, names[1..]).missing.value == PathOf(savePath, names[1..][i]) &&
            PathOf(savePath, names[1..][i]) !in files &&
            forall j :: 0 <= j < i ==> PathOf(savePath, names[1..][j]) in files;
          assert PathOf(savePath, names[i + 1]) !in files;
        }
        if exists i :: 0 <= i < |names| && PathOf(savePath, names[i]) !in files {
          var i :| 0 <= i < |names| && PathOf(savePath, names[i]) !in files;
          assert i > 0 && PathOf(savePath, names[1..][i - 1]) !in files;
        }
      } else {
        assert PathOf(savePath, names[0]) !in files;
      }
    }
  }

  // ---------------------------------------------------------------- records as rows

  /** The record has all the keys. */
  predicate HasKeys(d: Record, keys: seq<string>)
  {
    forall k :: k in keys ==> k in d.vals
  }

  /** Looking the keys up one after the other (a dict display of `d[k]` items, or a
      `%(key)s` format): KeyError at the first key that is missing. */
  function Pick(d: Record, keys: seq<string>): (r: Result<map<string, Value>>)
    ensures r.Ok? <==> HasKeys(d, keys)
    ensures r.Err? ==> r.error.KeyError? && r.error.key in keys && r.error.key !in d.vals
    decreases |keys|
  {
    if keys == [] then Ok(map[])
    else if keys[0] !in d.vals then Err(KeyError(keys[0]))
    else
      var rest := Pick(d, keys[1..]);
      assert forall k :: k in keys <==> k == keys[0] || k in keys[1..];
      if rest.Err? then rest else Ok(rest.value[keys[0] := d.vals[keys[0]]])
  }

  /** What `Pick` gives: exactly the keys, each with the record's value; or KeyError
      for one of the keys the record lacks. */
  lemma {:induction false} PickEntries(d: Record, keys: seq<string>)
    ensures var r := Pick(d, keys);
      r.Ok? ==> r.value.Keys == (set k | k in keys) && forall k :: k in keys ==> r.value[k] == d.vals[k]
    ensures var r := Pick(d, keys); r.Err? ==> r.error.key in keys && r.error.key !in d.vals
    decreases |keys|
  {
    if keys != [] && keys[0] in d.vals {
      PickEntries(d, keys[1..]);
      assert forall k :: k in keys <==> k == keys[0] || k in keys[1..];
    }
  }

  // ---------------------------------------------------------------- mysql

  /** The `%(key)s` placeholder of a key. */
  function Placeholder(key: string): string
  {
    "%(" + key + ")s"
  }

  /** The key a placeholder names: what sits between its `%(` and its `)s`. */
  function KeyOf(p: string): string
  {
    if |p| >= 4 then p[2..|p| - 2] else ""
  }

  /** A placeholder is `%(`, its key and `)s`, so its key reads back. */
  lemma PlaceholderKey(key: string)
    ensures var p := Placeholder(key); p[..2] == "%(" && p[|p| - 2..] == ")s" && KeyOf(p) == key
  {
    var p := Placeholder(key);
    assert p == ("%(" + key) + ")s";
    assert ("%(" + key)[..2] == "%(";
    assert ("%(" + key)[2..] == key;
  }

  /** One placeholder per key, in the order of the keys; each names the key it was
      made from. */
  function Placeholders(keys: seq<string>): (r: seq<string>)
    ensures |r| == |keys| && forall i :: 0 <= i < |keys| ==> r[i] == Placeholder(keys[i]) && KeyOf(r[i]) == keys[i]
  {
    forall i | 0 <= i < |keys| ensures KeyOf(Placeholder(keys[i])) == keys[i] {
      PlaceholderKey(keys[i]);
    }
    seq(|keys|, i requires 0 <= i < |keys| => Placeholder(keys[i]))
  }

  /** `sql_key`: the keys joined by commas. */
  function ColumnList(keys: seq<string>): string
  {
    Join(keys, ",")
  }

  /** `sql_value`: the placeholders joined by `, `. */
  function ValueList(keys: seq<string>): string
  {
    Join(Placeholders(keys), ", ")
  }

  /** The INSERT statement of `data_save` for table `table` and the first record's
      keys. */
  function InsertSql(table: string, keys: seq<string>): string
  {
    "\n            INSERT INTO " + table + "(" + ColumnList(keys) + ")\n            VALUES (" +
    ValueList(keys) + ");\n            "
  }

  /** The column list names the keys, in their order, and the value list holds one
      placeholder per key, in the same order: as many columns as placeholders, so
      long as no key holds a comma. */
  lemma InsertLists(keys: seq<string>)
    requires |keys| >= 1 && NoneContains(keys, ',')
    ensures Split(ColumnList(keys), ',') == keys
    ensures var v := Split(ValueList(keys), ',');
      |v| == |keys| && v[0] == Placeholder(keys[0]) &&
      forall i :: 1 <= i < |keys| ==> v[i] == " " + Placeholder(keys[i])
  {
    SplitJoinComma(keys);
    var ps := Placeholders(keys);
    PlaceholdersNoComma(keys);
    SplitJoin("", ps, ',', " ");
    assert [','] + " " == ", ";
    assert "" + Join(ps, ", ") == ValueList(keys);
    assert "" + ps[0] == ps[0];
  }

  lemma PlaceholdersNoComma(keys: seq<string>)
    requires NoneContains(keys, ',')
    ensures NoneContains(Placeholders(keys), ',')
  {
    var ps := Placeholders(keys);
    forall i | 0 <= i < |ps| ensures ',' !in ps[i] {
      var k := keys[i];
      assert ps[i] == ['%', '('] + k + [')', 's'];
      assert forall j :: 0 <= j < |ps[i]| ==> ps[i][j] != ',' by {
        forall j | 0 <= j < |ps[i]| ensures ps[i][j] != ',' {
          if 2 <= j < 2 + |k| {
            assert ps[i][j] == k[j - 2];
          }
        }
      }
    }
  }

  /** A MySQL table: its columns and its rows, each a map from column to value. */
  datatype Table = Table(columns: seq<string>, rows: seq<map<string, Value>>)

  /** `executemany(sql, json_data)` formats the statement with each record in turn:
      KeyError at the first record that lacks one of the keys. */
  function Rows(keys: seq<string>, data: seq<Record>): (r: Result<seq<map<string, Value>>>)
    ensures r.Ok? <==> forall i :: 0 <= i < |data| ==> Pick(data[i], keys).Ok?
    ensures r.Ok? ==> |r.value| == |data| && forall i :: 0 <= i < |data| ==> Pick(data[i], keys) == Ok(r.value[i])
    ensures r.Err? ==> r.error.KeyError?
    decreases |data|
  {
    if data == [] then Ok([])
    else
      var row := Pick(data[0], keys);
      if row.Err? then Err(row.error)
      else
        var rest := Rows(keys, data[1..]);
        assert forall i :: 1 <= i < |data| ==> data[1..][i - 1] == data[i];
        if rest.Err? then rest else Ok([row.value] + rest.value)
  }

  /** The first key that is not a column of the table, if any. */
  function FirstUnknown(keys: seq<string>, columns: seq<string>): (r: Option<string>)
    ensures r.None? <==> forall k :: k in keys ==> k in columns
    ensures r.Some? ==> r.value in keys && r.value !in columns
    decreases |keys|
  {
    if keys == [] then None
    else if keys[0] !in columns then Some(keys[0])
    else
      assert forall k :: k in keys <==> k == keys[0] || k in keys[1..];
      FirstUnknown(keys[1..], columns)
  }

  /** The tables after a write, and what was raised. */
  datatype Written = Written(tables: map<string, Table>, raised: Option<Error>)

  /** The mysql branch of `data_save`, on the committed state of the database:
      IndexError without records; AttributeError when the class set no `create_sql`;
      the blank template is refused; otherwise the table is created if absent and
      committed, and then all its rows are replaced by the records, cut to the first
      record's keys. The delete and the inserts are committed together, so a failed
      insert (a record without one of the keys, a key that is no column) leaves the
      rows as they were. */
  function SqlWrite(tables: map<string, Table>, createSql: Option<Ddl>, name: string, data: seq<Record>): Written
  {
    if data == [] then Written(tables, Some(IndexError))
    else if createSql.None? then Written(tables, Some(AttributeError("create_sql")))
    else if createSql.value.Blank? then Written(tables, Some(EmptyQuery))
    else
      var created := if name in tables then tables else tables[name := Table(createSql.value.columns, [])];
      var columns := created[name].columns;
      var keys := data[0].keys;
      var rows := Rows(keys, data);
      if rows.Err? then Written(created, Some(rows.error))
      else if FirstUnknown(keys, columns).Some? then Written(created, Some(UnknownColumn(FirstUnknown(keys, columns).value)))
      else Written(created[name := Table(columns, rows.value)], None)
  }

  /** When every record has the first record's keys and each key is a column, the
      table then holds exactly the records, one row each, in their order, and no
      other table changes. */
  lemma SqlWriteReplaces(tables: map<string, Table>, columns: seq<string>, name: string, data: seq<Record>)
    requires data != [] && forall i :: 0 <= i < |data| ==> forall k :: k in data[0].keys ==> k in data[i].vals
    requires var cols := if name in tables then tables[name].columns else columns;
      forall k :: k in data[0].keys ==> k in cols
    ensures var w := SqlWrite(tables, Some(CreateTable(columns)), name, data);
      w.raised.None? && name in w.tables && |w.tables[name].rows| == |data| &&
      (forall t :: t in tables && t != name ==> t in w.tables && w.tables[t] == tables[t]) &&
      forall i :: 0 <= i < |data| ==>
        w.tables[name].rows[i].Keys == (set k | k in data[0].keys) &&
        forall k :: k in data[0].keys ==> w.tables[name].rows[i][k] == data[i].vals[k]
  {
    var keys := data[0].keys;
    forall i | 0 <= i < |data| ensures Pick(data[i], keys).Ok? {
      assert HasKeys(data[i], keys);
    }
    var rows := Rows(keys, data).value;
    forall i | 0 <= i < |data|
      ensures rows[i].Keys == (set k | k in keys) && forall k :: k in keys ==> rows[i][k] == data[i].vals[k]
    {
      PickEntries(data[i], keys);
    }
  }

  /** The write fails, and leaves every row where it was, in each of the error cases. */
  lemma SqlWriteKeepsRows(tables: map<string, Table>, createSql: Option<Ddl>, name: string, data: seq<Record>)
    ensures var w := SqlWrite(tables, createSql, name, data);
      w.raised.Some? ==> forall t :: t in tables ==> t in w.tables && w.tables[t] == tables[t]
    ensures var w := SqlWrite(tables, createSql, name, data);
      (data == [] ==> w.raised == Some(IndexError)) &&
      (data != [] && createSql.None? ==> w.raised == Some(AttributeError("create_sql"))) &&
      (data != [] && createSql == Some(Blank) ==> w.raised == Some(EmptyQuery))
  {
  }

  // ---------------------------------------------------------------- neo4j

  /** The node labels the builders use. */
  datatype Kind = Locate | Resort | Located | Hotel | Facilities | Policy | Surround

  /** The relationship types the builders use. */
  datatype Rel = IsLocateOf | HasFacilities | HasPolicy | HasSurround

  /** A graph node: the id the store gives it, its label and its properties. */
  datatype Node = Node(id: nat, kind: Kind, props: map<string, Value>)

  /** A relationship from one node id to another. */
  datatype Edge = Edge(from: nat, rel: Rel, to: nat)

  /** The graph, and the id the next node created gets. */
  datatype Graph = Graph(nodes: seq<Node>, edges: seq<Edge>, next: nat)

  /** The label of the node with id `id`, if there is one. */
  function LabelOf(nodes: seq<Node>, id: nat): Option<Kind>
    decreases |nodes|
  {
    if nodes == [] then None
    else if nodes[0].id == id then Some(nodes[0].kind)
    else LabelOf(nodes[1..], id)
  }

  /** A node with id `id` exists and has the label `kind` (any label when `None`). */
  predicate Labelled(nodes: seq<Node>, id: nat, kind: Option<Kind>)
  {
    LabelOf(nodes, id).Some? && (kind.None? || LabelOf(nodes, id).value == kind.value)
  }

  /** The Cypher pattern `(n:n)-[]-(m:m)`: the edge joins such nodes, either way round. */
  predicate Joins(nodes: seq<Node>, e: Edge, n: Option<Kind>, m: Kind)
  {
    (Labelled(nodes, e.from, n) && Labelled(nodes, e.to, Some(m))) ||
    (Labelled(nodes, e.to, n) && Labelled(nodes, e.from, Some(m)))
  }

  /** The ids the pattern matches along `edges`. */
  function Matched(nodes: seq<Node>, edges: seq<Edge>, n: Option<Kind>, m: Kind): (r: set<nat>)
    ensures forall e :: e in edges && Joins(nodes, e, n, m) ==> e.from in r && e.to in r
    ensures forall x :: x in r ==> exists e :: e in edges && Joins(nodes, e, n, m) && (x == e.from || x == e.to)
    decreases |edges|
  {
    if edges == [] then {}
    else
      var rest := Matched(nodes, edges[1..], n, m);
      assert forall e :: e in edges <==> e == edges[0] || e in edges[1..];
      if Joins(nodes, edges[0], n, m) then {edges[0].from, edges[0].to} + rest else rest
  }

  function KeepNodes(nodes: seq<Node>, gone: set<nat>): (r: seq<Node>)
    ensures forall x :: x in r <==> x in nodes && x.id !in gone
    decreases |nodes|
  {
    if nodes == [] then []
    else
      assert forall x :: x in nodes <==> x == nodes[0] || x in nodes[1..];
      (if nodes[0].id in gone then [] else [nodes[0]]) + KeepNodes(nodes[1..], gone)
  }

  function KeepEdges(edges: seq<Edge>, gone: set<nat>): (r: seq<Edge>)
    ensures forall e :: e in r <==> e in edges && e.from !in gone && e.to !in gone
    decreases |edges|
  {
    if edges == [] then []
    else
      assert forall e :: e in edges <==> e == edges[0] || e in edges[1..];
      (if edges[0].from in gone || edges[0].to in gone then [] else [edges[0]]) + KeepEdges(edges[1..], gone)
  }

  /** `match (n:n)-[]-(m:m) detach delete n, m`: the matched nodes go, and every edge
      at one of them with them. */
  function Clean(g: Graph, n: Option<Kind>, m: Kind): Graph
  {
    var gone := Matched(g.nodes, g.edges, n, m);
    Graph(KeepNodes(g.nodes, gone), KeepEdges(g.edges, gone), g.next)
  }

  lemma {:induction false} KeptLabel(nodes: seq<Node>, gone: set<nat>, id: nat)
    requires id !in gone
    ensures LabelOf(KeepNodes(nodes, gone), id) == LabelOf(nodes, id)
    decreases |nodes|
  {
    if nodes != [] {
      KeptLabel(nodes[1..], gone, id);
      var rest := KeepNodes(nodes[1..], gone);
      if nodes[0].id !in gone {
        assert KeepNodes(nodes, gone) == [nodes[0]] + rest;
        assert ([nodes[0]] + rest)[1..] == rest;
      } else {
        assert KeepNodes(nodes, gone) == rest;
      }
    }
  }

  /** After the clean, no edge joins nodes of the pattern: each such pair is gone,
      while the nodes and edges that stay keep their labels and stay as they were. */
  lemma CleanLeavesNoMatch(g: Graph, n: Option<Kind>, m: Kind)
    ensures var c := Clean(g, n, m); forall e :: e in c.edges ==> !Joins(c.nodes, e, n, m)
  {
    var gone := Matched(g.nodes, g.edges, n, m);
    var c := Clean(g, n, m);
    forall e | e in c.edges ensures !Joins(c.nodes, e, n, m) {
      KeptLabel(g.nodes, gone, e.from);
      KeptLabel(g.nodes, gone, e.to);
    }
  }

  /** The keys of the `locate` node of a resort. */
  const LocateKeys := ["address", "areaId", "areaName", "lat", "lng", "source", "timeStamp"]

  /** What a graph builder leaves: the records (the Ctrip builder pops keys from
      them), the graph, and what was raised. */
  datatype Built = Built(data: seq<Record>, graph: Graph, raised: Option<Error>)

  /** One round of `MafengwoSaver.graph_builder`: a `locate` node of the keys `keys`
      (the builder's are `LocateKeys`), a `resort` node of the whole record, and the
      `isLocateOf` edge between them. */
  function ResortStep(keys: seq<string>, g: Graph, info: Record): Result<Graph>
  {
    var area := Pick(info, keys);
    if area.Err? then Err(area.error)
    else Ok(Graph(g.nodes + [Node(g.next, Locate, area.value), Node(g.next + 1, Resort, info.vals)],
                  g.edges + [Edge(g.next, IsLocateOf, g.next + 1)], g.next + 2))
  }

  /** `MafengwoSaver.graph_builder` on the records `data`, which it leaves alone. */
  function ResortsOf(keys: seq<string>, g: Graph, data: seq<Record>): (r: Built)
    ensures r.data == data
    decreases |data|
  {
    if data == [] then Built(data, g, None)
    else
      var step := ResortStep(keys, g, data[0]);
      if step.Err? then Built(data, g, Some(step.error))
      else
        var rest := ResortsOf(keys, step.value, data[1..]);
        Built(data, rest.graph, rest.raised)
  }

  /** `h` is `g` with nodes and edges added after those of `g`, and no id reused. */
  predicate Grows(g: Graph, h: Graph)
  {
    |g.nodes| <= |h.nodes| && h.nodes[..|g.nodes|] == g.nodes &&
    |g.edges| <= |h.edges| && h.edges[..|g.edges|] == g.edges &&
    g.next <= h.next
  }

  lemma GrowsTransitive(g: Graph, h: Graph, k: Graph)
    requires Grows(g, h) && Grows(h, k)
    ensures Grows(g, k)
  {
    assert k.nodes[..|g.nodes|] == k.nodes[..|h.nodes|][..|g.nodes|];
    assert k.edges[..|g.edges|] == k.edges[..|h.edges|][..|g.edges|];
  }

  /** The builder only adds to the graph. Without an error it adds two nodes and one
      edge per record. */
  lemma {:induction false} ResortsGrowth(keys: seq<string>, g: Graph, data: seq<Record>)
    ensures Grows(g, ResortsOf(keys, g, data).graph)
    ensures var b := ResortsOf(keys, g, data);
      b.raised.None? ==>
        |b.graph.nodes| == |g.nodes| + 2 * |data| && |b.graph.edges| == |g.edges| + |data| &&
        b.graph.next == g.next + 2 * |data|
    decreases |data|
  {
    if data != [] {
      var step := ResortStep(keys, g, data[0]);
      if step.Ok? {
        var g1 := step.value;
        assert Grows(g, g1) by {
          assert g1.nodes[..|g.nodes|] == g.nodes && g1.edges[..|g.edges|] == g.edges;
        }
        ResortsGrowth(keys, g1, data[1..]);
        GrowsTransitive(g, g1, ResortsOf(keys, g1, data[1..]).graph);
      }
    }
  }

  /** Every record has all the keys. */
  predicate AllHaveKeys(data: seq<Record>, keys: seq<string>)
    decreases |data|
  {
    data == [] || (HasKeys(data[0], keys) && AllHaveKeys(data[1..], keys))
  }

  /** The builder fails exactly when a record lacks one of the keys, with KeyError for
      one of them. */
  lemma {:induction false} ResortsRaise(keys: seq<string>, g: Graph, data: seq<Record>)
    ensures var b := ResortsOf(keys, g, data); b.raised.None? <==> AllHaveKeys(data, keys)
    ensures var b := ResortsOf(keys, g, data);
      b.raised.Some? ==> b.raised.value.KeyError? && b.raised.value.key in keys
    decreases |data|
  {
    if data != [] {
      var step := ResortStep(keys, g, data[0]);
      if step.Ok? {
        ResortsRaise(keys, step.value, data[1..]);
      }
    }
  }

  /** The round of a resort record whose first node has id `id`: its `locate` node
      of the keys, its `resort` node of the whole record, and the `isLocateOf`
      edge from the first to the second. */
  function ResortRoundOf(keys: seq<string>, id: nat, info: Record): Round
    requires HasKeys(info, keys)
  {
    Round([Node(id, Locate, Pick(info, keys).value), Node(id + 1, Resort, info.vals)],
          [Edge(id, IsLocateOf, id + 1)])
  }

  /** The rounds of the records, one after the other, the first node with id `id`:
      what the builder is meant to add. */
  function ResortRounds(keys: seq<string>, data: seq<Record>, id: nat): (r: Round)
    requires AllHaveKeys(data, keys)
    ensures |r.nodes| == 2 * |data| && |r.edges| == |data|
    decreases |data|
  {
    if data == [] then Round([], [])
    else
      var r := ResortRoundOf(keys, id, data[0]);
      var rest := ResortRounds(keys, data[1..], id + 2);
      Round(r.nodes + rest.nodes, r.edges + rest.edges)
  }

  /** A run without an error adds exactly the rounds of the records, in their order,
      after the nodes and edges the graph had. */
  lemma {:induction false} ResortsClosed(keys: seq<string>, g: Graph, data: seq<Record>)
    requires ResortsOf(keys, g, data).raised.None?
    ensures AllHaveKeys(data, keys)
    ensures var r := ResortRounds(keys, data, g.next);
      ResortsOf(keys, g, data).graph == Graph(g.nodes + r.nodes, g.edges + r.edges, g.next + 2 * |data|)
    decreases |data|
  {
    ResortsRaise(keys, g, data);
    if data != [] {
      var g1 := ResortStep(keys, g, data[0]).value;
      var r := ResortRoundOf(keys, g.next, data[0]);
      assert g1 == Graph(g.nodes + r.nodes, g.edges + r.edges, g.next + 2);
      ResortsClosed(keys, g1, data[1..]);
      var rest := ResortRounds(keys, data[1..], g.next + 2);
      AppendAssoc(g.nodes, r.nodes, rest.nodes);
      AppendAssoc(g.edges, r.edges, rest.edges);
    } else {
      assert g.nodes + [] == g.nodes && g.edges + [] == g.edges;
    }
  }

  /** Record `j` gives the two nodes from position `n = 2j` on and the edge `j` of
      the rounds, the first node with id `at`: its `locate` node, its `resort` node
      and the edge between them. */
  lemma {:induction false} ResortRoundsAt(keys: seq<string>, data: seq<Record>, id: nat, j: nat, n: nat, at: nat)
    requires AllHaveKeys(data, keys) && j < |data|
    requires n == 2 * j && at == id + 2 * j
    ensures HasKeys(data[j], keys)
    ensures var r := ResortRounds(keys, data, id); var o := ResortRoundOf(keys, at, data[j]);
      r.nodes[n..][..2] == o.nodes && r.edges[j] == o.edges[0]
    decreases j
  {
    var h := ResortRoundOf(keys, id, data[0]);
    var rest := ResortRounds(keys, data[1..], id + 2);
    if j > 0 {
      ResortRoundsAt(keys, data[1..], id + 2, j - 1, n - 2, at);
      assert data[1..][j - 1] == data[j];
      DropAfter(h.nodes, rest.nodes, 2, n);
    } else {
      assert (h.nodes + rest.nodes)[..2] == h.nodes;
    }
  }

  /** The keys of the `located` node of a hotel. */
  const AreaKeys := ["address", "business_zone"]

  const FacilitiesKey := "hotel_facilities"
  const PolicyKey := "hotel_policy"
  const SurroundKey := "surround_facilities"

  /** The nested dicts `CtripSaver.graph_builder` pops off a hotel record. */
  const NestedKeys := [FacilitiesKey, PolicyKey, SurroundKey]

  lemma NestedKeysDistinct()
    ensures FacilitiesKey != PolicyKey && FacilitiesKey != SurroundKey && PolicyKey != SurroundKey
  {
    assert |FacilitiesKey| == 16 && |PolicyKey| == 12 && |SurroundKey| == 19;
  }

  /** `Node(label, **x)` with an `x` that is not a dict. */
  const NotMapping := TypeError("argument after ** must be a mapping")

  /** A record after one round of the Ctrip builder, and the graph, or what was
      raised. */
  datatype Stepped = Stepped(info: Record, graph: Result<Graph>)

  /** The nodes and edges of one round of a builder. */
  datatype Round = Round(nodes: seq<Node>, edges: seq<Edge>)

  /** The five nodes of one hotel, the first with id `id`, and its four edges. */
  function HotelRound(id: nat, area: map<string, Value>, hotel: map<string, Value>,
                      facilities: map<string, Value>, policy: map<string, Value>, surround: map<string, Value>): (r: Round)
    ensures |r.nodes| == 5 && |r.edges| == 4
  {
    Round([Node(id, Located, area), Node(id + 1, Hotel, hotel), Node(id + 2, Facilities, facilities),
           Node(id + 3, Policy, policy), Node(id + 4, Surround, surround)],
          [Edge(id, IsLocateOf, id + 1), Edge(id + 1, HasFacilities, id + 2),
           Edge(id + 1, HasPolicy, id + 3), Edge(id + 1, HasSurround, id + 4)])
  }

  /** The round's five nodes have fresh consecutive ids and the five labels, and
      each of its four edges has the hotel node at one end and a different node at
      the other. */
  lemma HotelRoundShape(id: nat, area: map<string, Value>, hotel: map<string, Value>,
                        facilities: map<string, Value>, policy: map<string, Value>, surround: map<string, Value>)
    ensures var r := HotelRound(id, area, hotel, facilities, policy, surround);
      (forall k :: 0 <= k < 5 ==> r.nodes[k].id == id + k) &&
      [r.nodes[0].kind, r.nodes[1].kind, r.nodes[2].kind, r.nodes[3].kind, r.nodes[4].kind] ==
        [Located, Hotel, Facilities, Policy, Surround] &&
      r.nodes[1].props == hotel &&
      forall k :: 0 <= k < 4 ==>
        (r.edges[k].from == id + 1 || r.edges[k].to == id + 1) && r.edges[k].from != r.edges[k].to
  {
    var r := HotelRound(id, area, hotel, facilities, policy, surround);
    forall k | 0 <= k < 5 ensures r.nodes[k].id == id + k {
    }
  }

  /** One round of `CtripSaver.graph_builder`: the `located` node of the address and
      the business zone; the three nested dicts are popped off the record, which
      loses them even when the round fails later; then the `hotel` node of what is
      left, a node for each nested dict, and the four edges, all at the hotel. */
  function HotelStep(g: Graph, info: Record): Stepped
  {
    var area := Pick(info, AreaKeys);
    if area.Err? then Stepped(info, Err(area.error))
    else
      var f := Pop(info, FacilitiesKey);
      if f.Err? then Stepped(info, Err(f.error))
      else
        var p := Pop(f.value.rest, PolicyKey);
        if p.Err? then Stepped(f.value.rest, Err(p.error))
        else
          var s := Pop(p.value.rest, SurroundKey);
          if s.Err? then Stepped(p.value.rest, Err(s.error))
          else
            var hotel := s.value.rest;
            if !(f.value.value.Obj? && p.value.value.Obj? && s.value.value.Obj?) then Stepped(hotel, Err(NotMapping))
            else
              var r := HotelRound(g.next, area.value, hotel.vals, f.value.value.fields, p.value.value.fields,
                                  s.value.value.fields);
              Stepped(hotel, Ok(Graph(g.nodes + r.nodes, g.edges + r.edges, g.next + 5)))
  }

  /** `CtripSaver.graph_builder` on the records `data`: every round writes its record
      back, popped, and the records after a failing round stay as they were. */
  function HotelsOf(g: Graph, data: seq<Record>): (r: Built)
    ensures |r.data| == |data|
    decreases |data|
  {
    if data == [] then Built([], g, None)
    else
      var step := HotelStep(g, data[0]);
      if step.graph.Err? then Built([step.info] + data[1..], g, Some(step.graph.error))
      else
        var rest := HotelsOf(step.graph.value, data[1..]);
        Built([step.info] + rest.data, rest.graph, rest.raised)
  }

  /** A record the Ctrip builder takes without raising. */
  predicate IsHotel(d: Record)
  {
    HasKeys(d, AreaKeys) && HasKeys(d, NestedKeys) &&
    d.vals[FacilitiesKey].Obj? && d.vals[PolicyKey].Obj? && d.vals[SurroundKey].Obj?
  }

  /** Every record is one the builder takes. */
  predicate AllHotels(data: seq<Record>)
    decreases |data|
  {
    data == [] || (IsHotel(data[0]) && AllHotels(data[1..]))
  }

  /** The record without the three nested dicts. */
  function Stripped(d: Record): Record
  {
    Dict(Without(Without(Without(d.keys, FacilitiesKey), PolicyKey), SurroundKey),
         d.vals - {FacilitiesKey, PolicyKey, SurroundKey})
  }

  /** The stripped record lacks the three nested keys, and has every other key of the
      record, at its value and in its order. */
  lemma StrippedKeeps(d: Record)
    ensures var r := Stripped(d); FacilitiesKey !in r.vals && PolicyKey !in r.vals && SurroundKey !in r.vals
    ensures var r := Stripped(d); forall k :: k in d.vals && k !in NestedKeys ==> k in r.vals && r.vals[k] == d.vals[k]
    ensures var r := Stripped(d); forall k :: k in r.keys <==> k in d.keys && k !in NestedKeys
  {
  }

  /** Every record without its nested dicts. */
  function AllStripped(data: seq<Record>): (r: seq<Record>)
    ensures |r| == |data| && forall j :: 0 <= j < |data| ==> r[j] == Stripped(data[j])
  {
    seq(|data|, j requires 0 <= j < |data| => Stripped(data[j]))
  }

  /** A round pops the three keys off the record when it has them all, whether or
      not it then raises. */
  lemma HotelStepPops(g: Graph, info: Record)
    requires HasKeys(info, AreaKeys) && HasKeys(info, NestedKeys)
    ensures HotelStep(g, info).info == Stripped(info)
  {
    NestedKeysDistinct();
    assert FacilitiesKey in NestedKeys && PolicyKey in NestedKeys && SurroundKey in NestedKeys;
    assert Pick(info, AreaKeys).Ok?;
    PopsStrip(info);
  }

  /** Popping the three nested keys one after the other leaves the stripped record. */
  lemma PopsStrip(info: Record)
    requires FacilitiesKey in info.vals && PolicyKey in info.vals && SurroundKey in info.vals
    ensures PolicyKey in Pop(info, FacilitiesKey).value.rest.vals
    ensures var f := Pop(info, FacilitiesKey).value.rest; SurroundKey in Pop(f, PolicyKey).value.rest.vals
    ensures var f := Pop(info, FacilitiesKey).value.rest; var p := Pop(f, PolicyKey).value.rest;
      Pop(p, SurroundKey).value.rest == Stripped(info)
  {
    NestedKeysDistinct();
    var f := Pop(info, FacilitiesKey).value.rest;
    var p := Pop(f, PolicyKey).value.rest;
    var s := Pop(p, SurroundKey).value.rest;
    assert s.vals == Stripped(info).vals;
  }

  /** The builder only adds to the graph; without an error it adds five nodes and
      four edges per record. */
  lemma {:induction false} HotelsGrowth(g: Graph, data: seq<Record>)
    ensures Grows(g, HotelsOf(g, data).graph)
    ensures var b := HotelsOf(g, data);
      b.raised.None? ==>
        |b.graph.nodes| == |g.nodes| + 5 * |data| && |b.graph.edges| == |g.edges| + 4 * |data| &&
        b.graph.next == g.next + 5 * |data|
    decreases |data|
  {
    if data != [] {
      var step := HotelStep(g, data[0]);
      if step.graph.Ok? {
        var g1 := step.graph.value;
        assert Grows(g, g1) by {
          assert g1.nodes[..|g.nodes|] == g.nodes && g1.edges[..|g.edges|] == g.edges;
        }
        HotelsGrowth(g1, data[1..]);
        GrowsTransitive(g, g1, HotelsOf(g1, data[1..]).graph);
      }
    }
  }

  /** The builder fails exactly when a record lacks one of the five keys or one of the
      nested values is not a dict. */
  lemma {:induction false} HotelsRaise(g: Graph, data: seq<Record>)
    ensures HotelsOf(g, data).raised.None? <==> AllHotels(data)
    decreases |data|
  {
    if data != [] {
      NestedKeysDistinct();
      var step := HotelStep(g, data[0]);
      if step.graph.Ok? {
        HotelsRaise(step.graph.value, data[1..]);
      }
    }
  }

  /** The run from record `i` on is its first round, then the run after it. */
  lemma HotelsAt(g: Graph, data: seq<Record>, i: nat)
    requires i < |data|
    ensures var step := HotelStep(g, data[i]); var b := HotelsOf(g, data[i..]);
      if step.graph.Err? then b == Built([step.info] + data[i + 1..], g, Some(step.graph.error))
      else var r := HotelsOf(step.graph.value, data[i + 1..]); b == Built([step.info] + r.data, r.graph, r.raised)
  {
    assert data[i..][0] == data[i] && data[i..][1..] == data[i + 1..];
  }

  /** What the builder raises: KeyError for a missing key, or TypeError for a nested
      value that is not a dict. */
  lemma {:induction false} HotelsRaiseKind(g: Graph, data: seq<Record>)
    ensures var e := HotelsOf(g, data).raised; e.Some? ==> e.value.KeyError? || e.value == NotMapping
    decreases |data|
  {
    if data != [] {
      var step := HotelStep(g, data[0]);
      if step.graph.Ok? {
        HotelsRaiseKind(step.graph.value, data[1..]);
      }
    }
  }

  /** The round a hotel record gives, its first node with id `id`. */
  function HotelRoundOf(id: nat, info: Record): Round
    requires IsHotel(info)
  {
    HotelRound(id, Pick(info, AreaKeys).value, Stripped(info).vals, info.vals[FacilitiesKey].fields,
               info.vals[PolicyKey].fields, info.vals[SurroundKey].fields)
  }

  /** The rounds of the records, one after the other, the first node with id `id`:
      what the builder is meant to add. */
  function HotelRounds(data: seq<Record>, id: nat): (r: Round)
    requires AllHotels(data)
    ensures |r.nodes| == 5 * |data| && |r.edges| == 4 * |data|
    decreases |data|
  {
    if data == [] then Round([], [])
    else
      var r := HotelRoundOf(id, data[0]);
      var rest := HotelRounds(data[1..], id + 5);
      Round(r.nodes + rest.nodes, r.edges + rest.edges)
  }

  /** A run without an error adds exactly the rounds of the records, in their order,
      after the nodes and edges the graph had, and leaves every record without its
      nested dicts. */
  lemma {:induction false} HotelsClosed(g: Graph, data: seq<Record>)
    requires HotelsOf(g, data).raised.None?
    ensures AllHotels(data)
    ensures var r := HotelRounds(data, g.next);
      HotelsOf(g, data).graph == Graph(g.nodes + r.nodes, g.edges + r.edges, g.next + 5 * |data|)
    decreases |data|
  {
    HotelsRaise(g, data);
    if data != [] {
      NestedKeysDistinct();
      var info := data[0];
      var step := HotelStep(g, info);
      HotelStepPops(g, info);
      var g1 := step.graph.value;
      var r := HotelRoundOf(g.next, info);
      assert g1 == Graph(g.nodes + r.nodes, g.edges + r.edges, g.next + 5);
      HotelsClosed(g1, data[1..]);
      var rest := HotelRounds(data[1..], g.next + 5);
      AppendAssoc(g.nodes, r.nodes, rest.nodes);
      AppendAssoc(g.edges, r.edges, rest.edges);
    } else {
      assert g.nodes + [] == g.nodes && g.edges + [] == g.edges;
    }
  }

  /** Record `j` gives the five nodes from position `n = 5j` on and the four edges
      from position `e = 4j` on of the rounds, the first node with id `at`: the round
      `HotelRoundShape` describes, whose hotel node holds the record without its
      nested dicts. */
  lemma {:induction false} HotelRoundsAt(data: seq<Record>, id: nat, j: nat, n: nat, e: nat, at: nat)
    requires AllHotels(data) && j < |data|
    requires n == 5 * j && e == 4 * j && at == id + 5 * j
    ensures IsHotel(data[j])
    ensures var r := HotelRounds(data, id); var o := HotelRoundOf(at, data[j]);
      r.nodes[n..][..5] == o.nodes && r.edges[e..][..4] == o.edges
    decreases j
  {
    var h := HotelRoundOf(id, data[0]);
    var rest := HotelRounds(data[1..], id + 5);
    if j > 0 {
      HotelRoundsAt(data[1..], id + 5, j - 1, n - 5, e - 4, at);
      assert data[1..][j - 1] == data[j];
      DropAfter(h.nodes, rest.nodes, 5, n);
      DropAfter(h.edges, rest.edges, 4, e);
    } else {
      assert (h.nodes + rest.nodes)[..5] == h.nodes && (h.edges + rest.edges)[..4] == h.edges;
    }
  }

  /** A run that is to end in `goal` after the records `done`, advanced by one round. */
  lemma HotelsAdvance(goal: Built, done: seq<Record>, g: Graph, data: seq<Record>, i: nat)
    requires i < |data|
    requires var rest := HotelsOf(g, data[i..]); goal == Built(done + rest.data, rest.graph, rest.raised)
    ensures var step := HotelStep(g, data[i]);
      if step.graph.Err? then goal == Built(done + [step.info] + data[i + 1..], g, Some(step.graph.error))
      else var rest := HotelsOf(step.graph.value, data[i + 1..]);
        goal == Built(done + [step.info] + rest.data, rest.graph, rest.raised)
  {
    HotelsAt(g, data, i);
    var step := HotelStep(g, data[i]);
    if step.graph.Err? {
      AppendAssoc(done, [step.info], data[i + 1..]);
    } else {
      AppendAssoc(done, [step.info], HotelsOf(step.graph.value, data[i + 1..]).data);
    }
  }

  /** Writing `y` over the record `x` that follows `done`. */
  lemma WriteBack(done: seq<Record>, x: Record, y: Record, rest: seq<Record>)
    requires rest != [] && rest[0] == x
    ensures (done + rest)[|done| := y] == done + [y] + rest[1..]
  {
  }

  /** A run without an error leaves every record without its nested dicts. */
  lemma {:induction false} HotelsPopped(g: Graph, data: seq<Record>)
    requires HotelsOf(g, data).raised.None?
    ensures HotelsOf(g, data).data == AllStripped(data)
    decreases |data|
  {
    if data != [] {
      HotelsRaise(g, data);
      var step := HotelStep(g, data[0]);
      HotelStepPops(g, data[0]);
      HotelsPopped(step.graph.value, data[1..]);
      assert [Stripped(data[0])] + AllStripped(data[1..]) == AllStripped(data);
    }
  }

  // ---------------------------------------------------------------- data_save

  /** `graph_cleaner` of each class: the base class does nothing. */
  function GraphCleanOf(cls: SaverClass, g: Graph): Graph
  {
    match cls
    case BaseSaver => g
    case MafengwoSaver => Clean(g, Some(Locate), Resort)
    case CtripSaver => Clean(g, None, Hotel)
  }

  /** `graph_builder` of each class: the base class does nothing. */
  function GraphBuildOf(cls: SaverClass, g: Graph, data: seq<Record>): Built
  {
    match cls
    case BaseSaver => Built(data, g, None)
    case MafengwoSaver => ResortsOf(LocateKeys, g, data)
    case CtripSaver => HotelsOf(g, data)
  }

  /** The three databases a saver may write: MongoDB collections, MySQL tables (their
      committed state) and the Neo4j graph. */
  datatype Stores = Stores(collections: map<string, seq<Record>>, tables: map<string, Table>, graph: Graph)

  /** `json_data` after `data_save`, the databases, and what was raised. */
  datatype Saved = Saved(data: seq<Record>, db: Stores, raised: Option<Error>)

  /** `insert_many` of an empty list. */
  const NoDocuments := TypeError("documents must be a non-empty list")

  /** `data_save(*names)`: the records of the named files, in order, then the write of
      the saver's mode. The collection and the table take the last name; the loop
      variable is unbound when no name is given. */
  function SaveOf(cls: SaverClass, mode: SaveMode, createSql: Option<Ddl>, savePath: string,
                  files: map<string, seq<Record>>, names: seq<string>, db: Stores): Saved
  {
    var l := Load(files, savePath, names);
    if l.missing.Some? then Saved(l.data, db, Some(MissingError(l.missing.value)))
    else match mode
      case MongoDb =>
        if names == [] then Saved(l.data, db, Some(UnboundLocal("file_name")))
        else
          var name := names[|names| - 1];
          if l.data == [] then Saved(l.data, db.(collections := db.collections - {name}), Some(NoDocuments))
          else Saved(l.data, db.(collections := db.collections[name := l.data]), None)
      case Neo4j =>
        var b := GraphBuildOf(cls, GraphCleanOf(cls, db.graph), l.data);
        Saved(b.data, db.(graph := b.graph), b.raised)
      case MySql =>
        if names == [] then Saved(l.data, db, Some(IndexError))
        else
          var w := SqlWrite(db.tables, createSql, names[|names| - 1], l.data);
          Saved(l.data, db.(tables := w.tables), w.raised)
  }

  /** A missing file raises RuntimeError with the path of the first one missing, before
      any database is touched; and only a missing file raises that. */
  lemma SaveMissing(cls: SaverClass, mode: SaveMode, createSql: Option<Ddl>, savePath: string,
                    files: map<string, seq<Record>>, names: seq<string>, db: Stores)
    ensures var s := SaveOf(cls, mode, createSql, savePath, files, names, db);
      (exists i :: 0 <= i < |names| && PathOf(savePath, names[i]) !in files) ==>
        s.db == db &&
        exists i :: 0 <= i < |names| && s.raised == Some(MissingError(PathOf(savePath, names[i]))) &&
          PathOf(savePath, names[i]) !in files && forall j :: 0 <= j < i ==> PathOf(savePath, names[j]) in files
    ensures var s := SaveOf(cls, mode, createSql, savePath, files, names, db);
      (forall i :: 0 <= i < |names| ==> PathOf(savePath, names[i]) in files) ==>
        s.raised.None? || !(s.raised.value.RuntimeError?)
  {
    LoadMissing(files, savePath, names);
    var l := Load(files, savePath, names);
    if l.missing.None? {
      var s := SaveOf(cls, mode, createSql, savePath, files, names, db);
      if mode == Neo4j && cls == MafengwoSaver {
        ResortsRaise(LocateKeys, Clean(db.graph, Some(Locate), Resort), l.data);
      } else if mode == Neo4j && cls == CtripSaver {
        HotelsRaiseKind(Clean(db.graph, None, Hotel), l.data);
      }
    }
  }

  /** In mongodb mode the collection of the last name ends up holding exactly the
      records of all the files, whatever it held before; the other collections, the
      tables and the graph stay as they were. */
  lemma SaveMongoReplaces(cls: SaverClass, createSql: Option<Ddl>, savePath: string,
                          files: map<string, seq<Record>>, names: seq<string>, db: Stores)
    requires Load(files, savePath, names).missing.None? && names != []
    requires Load(files, savePath, names).data != []
    ensures var s := SaveOf(cls, MongoDb, createSql, savePath, files, names, db); var name := names[|names| - 1];
      s.raised.None? && s.data == Load(files, savePath, names).data &&
      s.db.collections == db.collections[name := s.data] && s.db.tables == db.tables && s.db.graph == db.graph
  {
  }

  /** In mongodb mode without any record the old collection is dropped all the same,
      and then `insert_many` raises. */
  lemma SaveMongoEmpty(cls: SaverClass, createSql: Option<Ddl>, savePath: string,
                       files: map<string, seq<Record>>, names: seq<string>, db: Stores)
    requires Load(files, savePath, names).missing.None? && names != []
    requires Load(files, savePath, names).data == []
    ensures var s := SaveOf(cls, MongoDb, createSql, savePath, files, names, db);
      s.raised == Some(NoDocuments) && names[|names| - 1] !in s.db.collections
  {
  }

  /** In mysql mode, with no record to take the keys from, IndexError, and nothing is
      written. */
  lemma SaveMySqlEmpty(cls: SaverClass, createSql: Option<Ddl>, savePath: string,
                       files: map<string, seq<Record>>, names: seq<string>, db: Stores)
    requires Load(files, savePath, names).missing.None? && Load(files, savePath, names).data == []
    ensures var s := SaveOf(cls, MySql, createSql, savePath, files, names, db);
      s.raised == Some(IndexError) && s.db == db
  {
  }

  /** In neo4j mode, once every file is read, the saver cleans the graph and builds on
      what is left. */
  lemma SaveGraphOf(cls: SaverClass, createSql: Option<Ddl>, savePath: string,
                    files: map<string, seq<Record>>, names: seq<string>, db: Stores)
    requires Load(files, savePath, names).missing.None?
    ensures var b := GraphBuildOf(cls, GraphCleanOf(cls, db.graph), Load(files, savePath, names).data);
      SaveOf(cls, Neo4j, createSql, savePath, files, names, db) == Saved(b.data, db.(graph := b.graph), b.raised)
  {
  }

  /** The savers of the Mafengwo resorts in neo4j mode: the old resort graph is
      cleaned away, and when every record has the seven keys, each record's round
      follows, in order, after what is left. */
  lemma SaveResortsGraph(createSql: Option<Ddl>, savePath: string,
                         files: map<string, seq<Record>>, names: seq<string>, db: Stores)
    requires Load(files, savePath, names).missing.None?
    requires AllHaveKeys(Load(files, savePath, names).data, LocateKeys)
    ensures var s := SaveOf(MafengwoSaver, Neo4j, createSql, savePath, files, names, db);
      var c := Clean(db.graph, Some(Locate), Resort); var data := Load(files, savePath, names).data;
      var r := ResortRounds(LocateKeys, data, c.next);
      s.raised.None? && s.data == data &&
      s.db == db.(graph := Graph(c.nodes + r.nodes, c.edges + r.edges, c.next + 2 * |data|))
  {
    var c := Clean(db.graph, Some(Locate), Resort);
    var data := Load(files, savePath, names).data;
    SaveGraphOf(MafengwoSaver, createSql, savePath, files, names, db);
    ResortsRaise(LocateKeys, c, data);
    ResortsClosed(LocateKeys, c, data);
  }

  /** The savers of the Ctrip hotels in neo4j mode: the old hotel graph is cleaned
      away, and when every record is a hotel record, each record's round follows, in
      order, after what is left; `json_data` is left without the nested dicts. */
  lemma SaveHotelsGraph(createSql: Option<Ddl>, savePath: string,
                        files: map<string, seq<Record>>, names: seq<string>, db: Stores)
    requires Load(files, savePath, names).missing.None?
    requires AllHotels(Load(files, savePath, names).data)
    ensures var s := SaveOf(CtripSaver, Neo4j, createSql, savePath, files, names, db);
      var c := Clean(db.graph, None, Hotel); var data := Load(files, savePath, names).data;
      var r := HotelRounds(data, c.next);
      s.raised.None? && s.data == AllStripped(data) &&
      s.db == db.(graph := Graph(c.nodes + r.nodes, c.edges + r.edges, c.next + 5 * |data|))
  {
    var c := Clean(db.graph, None, Hotel);
    var data := Load(files, savePath, names).data;
    SaveGraphOf(CtripSaver, createSql, savePath, files, names, db);
    HotelsRaise(c, data);
    HotelsClosed(c, data);
    HotelsPopped(c, data);
  }

  /** The base class cannot write MySQL: it never sets `create_sql`. */
  lemma SaveBaseMySql(savePath: string, files: map<string, seq<Record>>, names: seq<string>, db: Stores)
    requires Load(files, savePath, names).missing.None? && Load(files, savePath, names).data != []
    ensures var s := SaveOf(BaseSaver, MySql, CreateSqlOf(BaseSaver, MySql), savePath, files, names, db);
      s.raised == Some(AttributeError("create_sql")) && s.db == db
  {
  }

  // ---------------------------------------------------------------- the saver

  /** A saver: its class, its mode and `create_sql`, the directory of the record
      files, `json_data`, and the databases it is connected to. */
  class Saver {
    const cls: SaverClass
    const mode: SaveMode
    const createSql: Option<Ddl>
    const savePath: string
    var jsonData: seq<Record>
    var db: Stores

    constructor (cls: SaverClass, mode: SaveMode, savePath: string, db: Stores)
      ensures this.cls == cls && this.mode == mode && createSql == CreateSqlOf(cls, mode)
      ensures this.savePath == savePath && this.db == db && jsonData == []
    {
      this.cls := cls;
      this.mode := mode;
      createSql := CreateSqlOf(cls, mode);
      this.savePath := savePath;
      this.db := db;
      jsonData := [];
    }

    /** `BaseSaver(save_mode)` and its subclasses: RuntimeError, and no saver, for a
        mode outside `SAVE_MODES`. */
    static method New(cls: SaverClass, saveMode: string, savePath: string, db: Stores) returns (r: Result<Saver>)
      ensures r.Err? <==> saveMode !in SaveModes
      ensures r.Err? ==> r.error == ModeError
      ensures r.Ok? ==> fresh(r.value) && r.value.cls == cls && ModeName(r.value.mode) == saveMode
      ensures r.Ok? ==> r.value.createSql == CreateSqlOf(cls, r.value.mode) && r.value.savePath == savePath
      ensures r.Ok? ==> r.value.db == db && r.value.jsonData == []
    {
      var mode := ParseMode(saveMode);
      if mode.Err? {
        return Err(mode.error);
      }
      var s := new Saver(cls, mode.value, savePath, db);
      return Ok(s);
    }

    /** `graph_cleaner`. */
    method GraphCleaner()
      modifies this
      ensures db == old(db).(graph := GraphCleanOf(cls, old(db.graph))) && jsonData == old(jsonData)
    {
      db := db.(graph := GraphCleanOf(cls, db.graph));
    }

    /** `MafengwoSaver.graph_builder`: one round per record, until a record lacks a key. */
    method BuildResorts() returns (raised: Option<Error>)
      modifies this
      ensures var b := ResortsOf(LocateKeys, old(db.graph), old(jsonData));
        db == old(db).(graph := b.graph) && raised == b.raised && jsonData == old(jsonData)
    {
      ghost var goal := ResortsOf(LocateKeys, db.graph, jsonData);
      var i := 0;
      while i < |jsonData|
        invariant 0 <= i <= |jsonData| && jsonData == old(jsonData)
        invariant db == old(db).(graph := db.graph)
        invariant var rest := ResortsOf(LocateKeys, db.graph, jsonData[i..]); goal.graph == rest.graph && goal.raised == rest.raised
        decreases |jsonData| - i
      {
        assert jsonData[i..][0] == jsonData[i] && jsonData[i..][1..] == jsonData[i + 1..];
        var step := ResortStep(LocateKeys, db.graph, jsonData[i]);
        if step.Err? {
          return Some(step.error);
        }
        db := db.(graph := step.value);
        i := i + 1;
      }
      return None;
    }

    /** `CtripSaver.graph_builder`: one round per record, each record written back
        popped, until a round raises. */
    method BuildHotels() returns (raised: Option<Error>)
      modifies this
      ensures var b := HotelsOf(old(db.graph), old(jsonData));
        db == old(db).(graph := b.graph) && raised == b.raised && jsonData == b.data
    {
      ghost var data := jsonData;
      ghost var goal := HotelsOf(db.graph, data);
      ghost var done: seq<Record> := [];
      var i := 0;
      assert data[0..] == data && [] + goal.data == goal.data;
      while i < |jsonData|
        invariant 0 <= i <= |data| && |done| == i && jsonData == done + data[i..]
        invariant db == old(db).(graph := db.graph)
        invariant var rest := HotelsOf(db.graph, data[i..]); goal == Built(done + rest.data, rest.graph, rest.raised)
        decreases |jsonData| - i
      {
        var info := jsonData[i];
        assert info == data[i];
        HotelsAdvance(goal, done, db.graph, data, i);
        var step := HotelStep(db.graph, info);
        jsonData := jsonData[i := step.info];
        WriteBack(done, info, step.info, data[i..]);
        done := done + [step.info];
        if step.graph.Err? {
          return Some(step.graph.error);
        }
        db := db.(graph := step.graph.value);
        i := i + 1;
      }
      assert data[i..] == [] && done + [] == done;
      return None;
    }

    /** `graph_builder`. */
    method GraphBuilder() returns (raised: Option<Error>)
      modifies this
      ensures var b := GraphBuildOf(cls, old(db.graph), old(jsonData));
        db == old(db).(graph := b.graph) && raised == b.raised && jsonData == b.data
    {
      match cls {
        case BaseSaver => raised := None;
        case MafengwoSaver => raised := BuildResorts();
        case CtripSaver => raised := BuildHotels();
      }
    }

    /** The load loop of `data_save(*names)`: `json_data` becomes the records of the
        named files, up to the first that is missing. */
    method LoadFiles(names: seq<string>, files: map<string, seq<Record>>) returns (missing: Option<string>)
      modifies this
      ensures Loaded(jsonData, missing) == Load(files, savePath, names) && db == old(db)
    {
      jsonData := [];
      var i := 0;
      while i < |names|
        invariant 0 <= i <= |names| && db == old(db)
        invariant Load(files, savePath, names[..i]) == Loaded(jsonData, None)
        decreases |names| - i
      {
        var path := PathOf(savePath, names[i]);
        LoadSnoc(files, savePath, names[..i], names[i]);
        assert names[..i] + [names[i]] == names[..i + 1];
        if path !in files {
          LoadAppend(files, savePath, names[..i], names[i..]);
          assert names[..i] + names[i..] == names;
          assert names[i..][0] == names[i];
          return Some(path);
        }
        jsonData := jsonData + files[path];
        i := i + 1;
      }
      assert names[..i] == names;
      return None;
    }

    /** `data_save(*names)`, with `files` the record lists of the files that exist. */
    method DataSave(names: seq<string>, files: map<string, seq<Record>>) returns (raised: Option<Error>)
      modifies this
      ensures Saved(jsonData, db, raised) == SaveOf(cls, mode, createSql, savePath, files, names, old(db))
    {
      var missing := LoadFiles(names, files);
      if missing.Some? {
        return Some(MissingError(missing.value));
      }
      match mode {
        case MongoDb =>
          if names == [] {
            return Some(UnboundLocal("file_name"));
          }
          var name := names[|names| - 1];
          db := db.(collections := db.collections - {name});
          if jsonData == [] {
            return Some(NoDocuments);
          }
          db := db.(collections := db.collections[name := jsonData]);
          return None;
        case Neo4j =>
          GraphCleaner();
          raised := GraphBuilder();
        case MySql =>
          if jsonData == [] {
            return Some(IndexError);
          }
          var w := SqlWrite(db.tables, createSql, names[|names| - 1], jsonData);
          db := db.(tables := w.tables);
          return w.raised;
      }
    }
  }
}
