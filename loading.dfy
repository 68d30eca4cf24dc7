/**
 What `load_experiments` and `load_file` do to the flag table, as functions
 of the table before the call. The document is already decoded: a sequence
 of its top-level key/value pairs in iteration order.
 */
module Loading {
  import opened Flags

  type Document = seq<(Value, Value)>

  /** What a decoder hands back: the pairs of the document, or a parse error. */
  datatype Decoded = Decoded(doc: Document) | Unparsable

  datatype Format = Yaml | Json

  /** The table after a load, and the exception that ended it, if any. */
  datatype Loaded = Loaded(table: map<Name, Value>, raised: Option<Error>)

  /** `struct.each { |key, value| add(key.to_sym, value) }`: pairs are added
      in order; a key without `to_sym` raises, and the pairs before it stay. */
  function LoadPairs(m: map<Name, Value>, doc: Document): Loaded
    decreases doc
  {
    if doc == [] then Loaded(m, None)
    else match ToSym(doc[0].0)
      case None => Loaded(m, Some(NoMethodError("to_sym")))
      case Some(n) => LoadPairs(m[n := doc[0].1], doc[1..])
  }

  ghost predicate AllKeysConvert(doc: Document)
  {
    forall i :: 0 <= i < |doc| ==> ToSym(doc[i].0).Some?
  }

  /** The assignments a document makes once its keys are symbols. */
  function Symbolized(doc: Document): (writes: seq<(Name, Value)>)
    requires AllKeysConvert(doc)
    ensures |writes| == |doc|
    ensures forall i :: 0 <= i < |doc| ==>
              writes[i] == (ToSym(doc[i].0).value, doc[i].1)
  {
    if doc == [] then [] else [(ToSym(doc[0].0).value, doc[0].1)] + Symbolized(doc[1..])
  }

  /** A document whose every key has `to_sym` loads completely, as the run
      of assignments `table[key.to_sym] = value` in document order. */
  lemma {:induction false} LoadIsAssign(m: map<Name, Value>, doc: Document)
    requires AllKeysConvert(doc)
    ensures LoadPairs(m, doc) == Loaded(Assign(m, Symbolized(doc)), None)
    decreases doc
  {
    if doc != [] {
      var n := ToSym(doc[0].0).value;
      assert AllKeysConvert(doc[1..]) by {
        forall i | 0 <= i < |doc[1..]| ensures ToSym(doc[1..][i].0).Some? {
          assert doc[1..][i] == doc[i + 1];
        }
      }
      LoadIsAssign(m[n := doc[0].1], doc[1..]);
    }
  }

  /** The first key without `to_sym` stops the load there: everything before
      it is already in the table, nothing after it is, and the table is not
      rolled back. */
  lemma {:induction false} LoadStopsAtFirstBadKey(m: map<Name, Value>, doc: Document, k: nat)
    requires k < |doc| && ToSym(doc[k].0).None?
    requires AllKeysConvert(doc[..k])
    ensures LoadPairs(m, doc) ==
              Loaded(Assign(m, Symbolized(doc[..k])), Some(NoMethodError("to_sym")))
    decreases k
  {
    if k == 0 {
      assert doc[..0] == [];
    } else {
      var n := ToSym(doc[0].0).value;
      assert ToSym(doc[..k][0].0).Some?;
      var before := doc[1..][..k - 1];
      assert before == doc[..k][1..];
      assert AllKeysConvert(before) by {
        forall i | 0 <= i < |before| ensures ToSym(before[i].0).Some? {
          assert before[i] == doc[..k][i + 1];
        }
      }
      LoadStopsAtFirstBadKey(m[n := doc[0].1], doc[1..], k - 1);
    }
  }

  /** Every entry a load adds is keyed by a Symbol, whatever the document's
      keys were. */
  lemma {:induction false} LoadedKeysAreSymbols(m: map<Name, Value>, doc: Document, n: Name)
    requires n in LoadPairs(m, doc).table
    ensures n in m || n.Sym?
    decreases doc
  {
    if doc != [] {
      match ToSym(doc[0].0)
      case None =>
      case Some(k) => LoadedKeysAreSymbols(m[k := doc[0].1], doc[1..], n);
    }
  }

  /** The String key "a" and the Symbol key :a both become :a, and the later
      pair wins. */
  lemma StringAndSymbolKeysCollide(m: map<Name, Value>, s: string, first: Value, second: Value)
    ensures LoadPairs(m, [(Text(s), first), (Symbol(s), second)]) == Loaded(m[Sym(s) := second], None)
  {
    var doc := [(Text(s), first), (Symbol(s), second)];
    assert doc[1..] == [(Symbol(s), second)];
    assert doc[1..][1..] == [];
    assert LoadPairs(m, doc) == LoadPairs(m[Sym(s) := first], doc[1..]);
    assert LoadPairs(m[Sym(s) := first], doc[1..]) == LoadPairs(m[Sym(s) := first][Sym(s) := second], []);
    assert m[Sym(s) := first][Sym(s) := second] == m[Sym(s) := second];
  }

  /** The dispatch in `load_file` on `File.extname`: exact, case-sensitive. */
  function FormatOf(ext: string): (r: Option<Format>)
    ensures r == Some(Yaml) <==> ext == ".yaml" || ext == ".yml"
    ensures r == Some(Json) <==> ext == ".json"
  {
    if ext == ".yaml" || ext == ".yml" then Some(Yaml)
    else if ext == ".json" then Some(Json)
    else None
  }

  /** `load_yaml` / `load_json` after decoding: a parse error leaves the table
      alone; a decoded document is loaded pair by pair. */
  function LoadDecoded(m: map<Name, Value>, d: Decoded): Loaded
  {
    match d
    case Unparsable => Loaded(m, Some(ParseError))
    case Decoded(doc) => LoadPairs(m, doc)
  }

  /** `load_file(path)`: the file is opened first, then the extension picks
      the decoder; an unknown extension raises and leaves the table alone. */
  function LoadFileSpec(m: map<Name, Value>, path: string, fileExists: bool, ext: string,
                        decode: Format -> Decoded): Loaded
  {
    if !fileExists then Loaded(m, Some(FileNotFound(path)))
    else match FormatOf(ext)
      case None => Loaded(m, Some(FileTypeNotFound(path)))
      case Some(format) => LoadDecoded(m, decode(format))
  }

  /** A missing file is reported before the extension is looked at. */
  lemma MissingFileReportedFirst(m: map<Name, Value>, path: string, ext: string, decode: Format -> Decoded)
    ensures LoadFileSpec(m, path, false, ext, decode) == Loaded(m, Some(FileNotFound(path)))
  {
  }

  /** An extension other than `.yaml`, `.yml` and `.json` raises, names the
      path, and leaves the table unchanged. */
  lemma UnknownExtensionRaises(m: map<Name, Value>, path: string, ext: string, decode: Format -> Decoded)
    requires ext != ".yaml" && ext != ".yml" && ext != ".json"
    ensures LoadFileSpec(m, path, true, ext, decode) == Loaded(m, Some(FileTypeNotFound(path)))
  {
  }

  /** YAML and JSON files that decode to the same pairs leave the same table. */
  lemma FormatsAgree(m: map<Name, Value>, path: string, yamlExt: string, decode: Format -> Decoded)
    requires yamlExt == ".yaml" || yamlExt == ".yml"
    requires decode(Yaml) == decode(Json)
    ensures LoadFileSpec(m, path, true, yamlExt, decode) == LoadFileSpec(m, path, true, ".json", decode)
  {
  }
}
