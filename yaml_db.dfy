/**
 * YamlFileDatabase: tables are YAML files named "<table>.yml". Reading a
 * key gives its stored value, if the file exists and has it; writing sets
 * each given key, where a key that holds a configuration section is merged
 * into (only the section's existing keys are updated) rather than replaced.
 */
module YamlDatabase {
  import opened Common

  /**
   * The values written: strings, other plain values (numbers, booleans,
   * lists, shown as text), maps, and parameter stores (by their key names).
   */
  datatype Value = Text(text: string) | Other(shown: string) | Entries(entries: map<string, Value>) | Factory(data: map<string, Value>)
  {
    /** Neither a map nor a parameter store. */
    predicate Plain() { Text? || Other? }
  }

  /** YAML content: a value, or a configuration section of named children. */
  datatype Node = Leaf(value: Value) | Section(children: map<string, Node>)

  // -------------------------------------------------------------------
  // Table names

  /** The file name of a table: ".yml" appended unless it already ends so (ignoring case). */
  function TableFile(tableName: string): (f: string)
    ensures EndsWithIgnoreCase(f, ".yml")
    ensures EndsWithIgnoreCase(tableName, ".yml") ==> f == tableName
    ensures !EndsWithIgnoreCase(tableName, ".yml") ==> f == tableName + ".yml"
  {
    if EndsWithIgnoreCase(tableName, ".yml") then tableName
    else
      var f := tableName + ".yml";
      assert f[|f| - 4..] == ".yml";
      f
  }

  /** Normalising a normalised name leaves it unchanged. */
  lemma TableFileIdempotent(tableName: string)
    ensures TableFile(TableFile(tableName)) == TableFile(tableName)
  {
  }

  // -------------------------------------------------------------------
  // setSection

  /**
   * The section key `n` after it is given `v`: a plain key takes the value;
   * a section takes a map or a parameter store merged into it, and any
   * other value is an IllegalArgumentException.
   */
  function MergeNode(n: Node, v: Value): (r: Result<Node>)
    ensures r.Err? ==> r.error == IllegalArgument && n.Section?
    ensures n.Leaf? ==> r == Ok(Leaf(v))
    ensures n.Section? && v.Plain() ==> r == Err(IllegalArgument)
    decreases n, 1
  {
    match n
    case Leaf(_) => Ok(Leaf(v))
    case Section(_) =>
      match v
      case Text(_) => Err(IllegalArgument)
      case Other(_) => Err(IllegalArgument)
      case Entries(m) => MergeSection(n, m)
      case Factory(d) => MergeSection(n, d)
  }

  /** The key's values `v` is merged with: a map's entries or a store's data. */
  function Sub(v: Value): map<string, Value>
    requires !v.Plain()
  {
    if v.Entries? then v.entries else v.data
  }

  /**
   * setSection(section, map): every key of the section that the map names
   * is given the map's value; the map's other keys are ignored, and the
   * section's other keys keep their values.
   */
  function MergeSection(n: Node, m: map<string, Value>): (r: Result<Node>)
    requires n.Section?
    ensures r.Err? ==> r.error == IllegalArgument
    ensures r.Ok? ==> r.value.Section? && r.value.children.Keys == n.children.Keys
    ensures r.Ok? ==> forall k :: k in n.children && k !in m ==> r.value.children[k] == n.children[k]
    ensures r.Ok? <==> forall k :: k in n.children && k in m ==> MergeNode(n.children[k], m[k]).Ok?
    ensures r.Ok? ==> forall k :: k in n.children && k in m ==> r.value.children[k] == MergeNode(n.children[k], m[k]).value
    decreases n, 0
  {
    if exists k :: k in n.children && k in m && MergeNode(n.children[k], m[k]).Err? then Err(IllegalArgument)
    else Ok(Section(map k | k in n.children :: if k in m then MergeNode(n.children[k], m[k]).value else n.children[k]))
  }

  /** Merging the same values a second time changes nothing more. */
  lemma {:induction false} MergeNodeIdempotent(n: Node, v: Value)
    requires MergeNode(n, v).Ok?
    ensures MergeNode(MergeNode(n, v).value, v) == MergeNode(n, v)
    decreases n, 1
  {
    if n.Section? {
      MergeSectionIdempotent(n, Sub(v));
    }
  }

  lemma {:induction false} MergeSectionIdempotent(n: Node, m: map<string, Value>)
    requires n.Section? && MergeSection(n, m).Ok?
    ensures MergeSection(MergeSection(n, m).value, m) == MergeSection(n, m)
    decreases n, 0
  {
    var once := MergeSection(n, m).value;
    forall k | k in n.children && k in m
      ensures MergeNode(once.children[k], m[k]) == Ok(once.children[k])
    {
      MergeNodeIdempotent(n.children[k], m[k]);
    }
    var twice := MergeSection(once, m);
    assert twice.Ok?;
    assert twice.value.children == once.children;
  }

  /** An empty map leaves a section as it is. */
  lemma MergeNothing(n: Node)
    requires n.Section?
    ensures MergeSection(n, map[]) == Ok(n)
  {
    var r := MergeSection(n, map[]);
    assert r.value.children == n.children;
  }

  /**
   * setSection's loop over the section's keys. The section is rebuilt as a
   * value; the key order, and so which keys were already updated when an
   * exception is thrown, is not modelled.
   */
  method SetSection(n: Node, m: map<string, Value>) returns (r: Result<Node>)
    requires n.Section?
    ensures r == MergeSection(n, m)
    decreases n, 0
  {
    var children := n.children;
    var todo := n.children.Keys;
    while todo != {}
      invariant todo <= n.children.Keys && children.Keys == n.children.Keys
      invariant forall k :: k in todo ==> children[k] == n.children[k]
      invariant forall k :: k in n.children && k !in todo && k !in m ==> children[k] == n.children[k]
      invariant forall k :: k in n.children && k !in todo && k in m ==>
                  MergeNode(n.children[k], m[k]).Ok? && children[k] == MergeNode(n.children[k], m[k]).value
      decreases todo
    {
      var k :| k in todo;
      todo := todo - {k};
      if k in m {
        var o := n.children[k];
        var value := m[k];
        if o.Section? {
          if value.Plain() {
            return Err(IllegalArgument);
          }
          var s := SetSection(o, Sub(value));
          if s.Err? {
            return s;
          }
          children := children[k := s.value];
        } else {
          children := children[k := Leaf(value)];
        }
      }
    }
    r := Ok(Section(children));
    assert r.value.children == MergeSection(n, m).value.children;
  }

  // -------------------------------------------------------------------
  // The per-key logic of write

  /** A factory's getOrDefault(name): the parameter store's data, or null. */
  type Lookup = string -> Option<map<string, Value>>

  /**
   * The value a section key is merged with: for a section named "shape"
   * or "vert" (ignoring case), a name is replaced by that factory's
   * parameter store, and a null store becomes an error.
   */
  function SectionValue(key: string, v: Value, shapes: Lookup, verts: Lookup): (r: Option<Value>)
    ensures !v.Text? ==> r == Some(v)
    ensures v.Text? && !EqualsIgnoreCase(key, "shape") && !EqualsIgnoreCase(key, "vert") ==> r == Some(v)
  {
    var afterShape := if EqualsIgnoreCase(key, "shape") && v.Text? then
                        (var f := shapes(v.text); if f.Some? then Some(Factory(f.value)) else None)
                      else Some(v);
    if afterShape.Some? && EqualsIgnoreCase(key, "vert") && afterShape.value.Text? then
      var f := verts(afterShape.value.text);
      if f.Some? then Some(Factory(f.value)) else None
    else afterShape
  }

  /**
   * What write stores under `key` for the new value: a section is merged
   * (a value that is neither a map nor a parameter store is an
   * IllegalArgumentException); anything else is replaced by the value.
   */
  function WriteKey(current: Option<Node>, key: string, v: Value, shapes: Lookup, verts: Lookup): (r: Result<Node>)
    ensures current.None? || current.value.Leaf? ==> r == Ok(Leaf(v))
    ensures r.Err? ==> r.error == IllegalArgument && current.Some? && current.value.Section?
    ensures r.Ok? && current.Some? && current.value.Section? ==>
              r.value.Section? && r.value.children.Keys == current.value.children.Keys
  {
    if current.Some? && current.value.Section? then
      var value := SectionValue(key, v, shapes, verts);
      if value.None? || value.value.Plain() then Err(IllegalArgument)
      else MergeSection(current.value, Sub(value.value))
    else Ok(Leaf(v))
  }

  /** A section key given a plain value that names no factory is an error. */
  lemma SectionNeedsMap(current: Node, key: string, text: string, shapes: Lookup, verts: Lookup)
    requires current.Section? && !EqualsIgnoreCase(key, "shape") && !EqualsIgnoreCase(key, "vert")
    ensures WriteKey(Some(current), key, Text(text), shapes, verts) == Err(IllegalArgument)
  {
  }

  /**
   * A section key given a plain value that is not a string is an error,
   * under any name: the factory lookups of shape and vert take only strings.
   */
  lemma OtherNeedsMap(current: Node, key: string, shown: string, shapes: Lookup, verts: Lookup)
    requires current.Section?
    ensures SectionValue(key, Other(shown), shapes, verts) == Some(Other(shown))
    ensures WriteKey(Some(current), key, Other(shown), shapes, verts) == Err(IllegalArgument)
  {
  }

  /** What a key holds now, if anything. */
  function Current(contents: map<string, Node>, key: string): (o: Option<Node>)
    ensures o.Some? <==> key in contents
    ensures o.Some? ==> o.value == contents[key]
  {
    if key in contents then Some(contents[key]) else None
  }

  /** The file contents after write: every given key set, or the first error. */
  function WriteAll(contents: map<string, Node>, kv: map<string, Value>, shapes: Lookup, verts: Lookup): (r: Result<map<string, Node>>)
  {
    if exists k :: k in kv && WriteKey(Current(contents, k), k, kv[k], shapes, verts).Err?
    then Err(IllegalArgument)
    else Ok(map k | k in contents.Keys + kv.Keys ::
              if k in kv then WriteKey(Current(contents, k), k, kv[k], shapes, verts).value
              else contents[k])
  }

  /** A write touches only the keys it names, and a key it names is present afterwards. */
  lemma WriteAllKeys(contents: map<string, Node>, kv: map<string, Value>, shapes: Lookup, verts: Lookup)
    ensures var r := WriteAll(contents, kv, shapes, verts);
      r.Ok? ==> r.value.Keys == contents.Keys + kv.Keys &&
                (forall k :: k in contents && k !in kv ==> r.value[k] == contents[k]) &&
                (forall k :: k in kv && (k !in contents || contents[k].Leaf?) ==> r.value[k] == Leaf(kv[k]))
  {
  }

  /** Contents in which every given key holds its written value are the result of write. */
  lemma WrittenAll(orig: map<string, Node>, kv: map<string, Value>, shapes: Lookup, verts: Lookup, contents: map<string, Node>)
    requires contents.Keys == orig.Keys + kv.Keys
    requires forall k :: k in contents && k !in kv ==> contents[k] == orig[k]
    requires forall k :: k in kv ==> WriteKey(Current(orig, k), k, kv[k], shapes, verts) == Ok(contents[k])
    ensures WriteAll(orig, kv, shapes, verts) == Ok(contents)
  {
    var r := WriteAll(orig, kv, shapes, verts);
    assert r.Ok?;
    assert r.value.Keys == contents.Keys;
    assert forall k :: k in contents ==> r.value[k] == contents[k];
    assert r.value == contents;
  }

  // -------------------------------------------------------------------
  // Files and the database

  /** A YAML file: whether it exists on disk, its saved contents and its loaded contents. */
  class YamlFile {
    var onDisk: bool
    var disk: map<string, Node>
    var contents: map<string, Node>

    constructor (onDisk: bool, disk: map<string, Node>)
      ensures this.onDisk == onDisk && this.disk == disk && contents == map[]
    {
      this.onDisk := onDisk;
      this.disk := disk;
      contents := map[];
    }

    /**
     * write's loop over the given pairs. The pairs come from a hash map,
     * so the order, and which keys were already set when an exception is
     * thrown, is not modelled: keys the write does not name are unchanged
     * in every case.
     */
    method WriteKeys(kv: map<string, Value>, shapes: Lookup, verts: Lookup) returns (out: Outcome)
      modifies this
      ensures var r := WriteAll(old(contents), kv, shapes, verts);
        (out.Pass? <==> r.Ok?) && (r.Ok? ==> contents == r.value) && (out.Fail? ==> out.error == IllegalArgument)
      ensures forall k :: k in old(contents) && k !in kv ==> k in contents && contents[k] == old(contents)[k]
      ensures onDisk == old(onDisk) && disk == old(disk)
    {
      ghost var orig := contents;
      var todo := kv.Keys;
      while todo != {}
        invariant todo <= kv.Keys
        invariant contents.Keys == orig.Keys + (kv.Keys - todo)
        invariant forall k :: k in contents && k !in kv - todo ==> contents[k] == orig[k]
        invariant forall k :: k in kv && k !in todo ==>
                    WriteKey(Current(orig, k), k, kv[k], shapes, verts) == Ok(contents[k])
        invariant onDisk == old(onDisk) && disk == old(disk) && orig == old(contents)
        decreases todo
      {
        var k :| k in todo;
        todo := todo - {k};
        var w := WriteKey(Current(contents, k), k, kv[k], shapes, verts);
        if w.Err? {
          return Fail(w.error);
        }
        contents := contents[k := w.value];
      }
      out := Pass;
      WrittenAll(orig, kv, shapes, verts, contents);
    }
  }

  class Database {
    /** The loaded tables by file name. */
    var files: map<string, YamlFile>

    constructor (files: map<string, YamlFile>)
      ensures this.files == files
    {
      this.files := files;
    }

    /**
     * read(table, key): empty when the table's file is not loaded or does
     * not exist on disk, or when it has no value for the key.
     */
    function Read(tableName: string, key: string): (r: Option<Node>)
      reads this, files.Values
      ensures var f := TableFile(tableName);
        r.Some? <==> f in files && files[f].onDisk && key in files[f].contents
      ensures r.Some? ==> r.value == files[TableFile(tableName)].contents[key]
    {
      var f := TableFile(tableName);
      if f !in files then None
      else
        var file := files[f];
        if !file.onDisk || key !in file.contents then None else Some(file.contents[key])
    }

    /**
     * write(table, pairs): the table's loaded file, or a new file object
     * that is not added to the database; a file missing on disk is
     * created as a copy of "default.yml" (or empty); the file is reloaded
     * from disk and then the pairs are written.
     */
    method Write(tableName: string, kv: map<string, Value>, shapes: Lookup, verts: Lookup) returns (out: Outcome, file: YamlFile)
      modifies files.Values
      ensures var f := TableFile(tableName); f in files ==> file == files[f]
      ensures var f := TableFile(tableName); f in files && old(files[f].onDisk) ==> file.disk == old(files[f].disk)
      ensures var f := TableFile(tableName); f !in files ==> fresh(file)
      ensures var f := TableFile(tableName);
        (f !in files || !old(files[f].onDisk)) ==>
          file.disk == if "default.yml" in files then old(files["default.yml"].disk) else map[]
      ensures file.onDisk
      ensures var r := WriteAll(file.disk, kv, shapes, verts);
        (out.Pass? <==> r.Ok?) && (r.Ok? ==> file.contents == r.value)
      ensures forall g :: g in files.Values && g != file ==> unchanged(g)
    {
      var f := TableFile(tableName);
      if f in files {
        file := files[f];
      } else {
        file := new YamlFile(false, map[]);
      }
      if !file.onDisk {
        if "default.yml" in files {
          file.disk := files["default.yml"].disk;
        } else {
          file.disk := map[];
        }
        file.onDisk := true;
      }
      file.contents := file.disk;
      out := file.WriteKeys(kv, shapes, verts);
    }
  }
}
