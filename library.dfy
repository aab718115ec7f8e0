/** The built-in character list: up to three Live2D characters whose model
    files ship with the project, and the rule that picks the default one. */
module Library {
  import opened Base

  /** One character: its internal id, the name shown on its button and the
      path of its `.model3.json` file. */
  datatype CharacterInfo = CharacterInfo(id: string, name: string, modelPath: Path)

  const MAO_ID: string := "mao_pro_en"
  const HIYORI_ID: string := "hiyori_pro_zh"
  const MIKU_ID: string := "miku_pro_jp"

  /** `root / folder / folder / "runtime" / file`, the layout every
      character's assets follow. */
  function ModelFile(root: Path, folder: string, file: string): (r: Path)
    ensures r.parts == root.parts + [folder, folder, "runtime", file]
  {
    Join(Join(Join(Join(root, folder), folder), "runtime"), file)
  }

  function Mao(root: Path): CharacterInfo {
    CharacterInfo(MAO_ID, "Mao", ModelFile(root, MAO_ID, "mao_pro.model3.json"))
  }

  function Hiyori(root: Path): CharacterInfo {
    CharacterInfo(HIYORI_ID, "Hiyori", ModelFile(root, HIYORI_ID, "hiyori_pro_t11.model3.json"))
  }

  function Miku(root: Path): CharacterInfo {
    CharacterInfo(MIKU_ID, "Miku", ModelFile(root, MIKU_ID, "miku_sample_t04.model3.json"))
  }

  /** The position of a built-in id in the declaration order. */
  function Rank(id: string): nat {
    if id == MAO_ID then 0 else if id == HIYORI_ID then 1 else 2
  }

  /** The three ids differ, and their ranks are 0, 1 and 2. */
  lemma {:induction false} RankOfIds()
    ensures Rank(MAO_ID) == 0 && Rank(HIYORI_ID) == 1 && Rank(MIKU_ID) == 2
  {
    assert MAO_ID[0] != HIYORI_ID[0] && MAO_ID[1] != MIKU_ID[1];
    assert HIYORI_ID[0] != MIKU_ID[0];
  }

  /** `_build_characters`: the three built-in characters, in declaration
      order, each kept only when its model file exists. The project root and
      the file system's answer to `exists()` are parameters. */
  function BuildCharacters(root: Path, present: Path -> bool): (r: seq<CharacterInfo>)
    ensures |r| <= 3
    ensures forall c :: c in r <==> (c == Mao(root) || c == Hiyori(root) || c == Miku(root)) && present(c.modelPath)
    ensures forall i, j :: 0 <= i < j < |r| ==> Rank(r[i].id) < Rank(r[j].id)
  {
    RankOfIds();
    var mao := Mao(root);
    var hiyori := Hiyori(root);
    var miku := Miku(root);
    (if present(mao.modelPath) then [mao] else [])
    + (if present(hiyori.modelPath) then [hiyori] else [])
    + (if present(miku.modelPath) then [miku] else [])
  }

  /** The built list never names a character twice. */
  lemma {:induction false} BuiltIdsDistinct(root: Path, present: Path -> bool)
    ensures var r := BuildCharacters(root, present);
            forall i, j :: 0 <= i < j < |r| ==> r[i].id != r[j].id
  {
    var r := BuildCharacters(root, present);
    forall i, j | 0 <= i < j < |r| ensures r[i].id != r[j].id {
      assert Rank(r[i].id) < Rank(r[j].id);
    }
  }

  /** The index of the first character with the given id, if any. */
  function FindById(chars: seq<CharacterInfo>, id: string): (r: Option<nat>)
    ensures r.None? <==> forall i :: 0 <= i < |chars| ==> chars[i].id != id
    ensures r.Some? ==> r.value < |chars| && chars[r.value].id == id
                        && forall i :: 0 <= i < r.value ==> chars[i].id != id
  {
    if chars == [] then None
    else if chars[0].id == id then Some(0)
    else
      match FindById(chars[1..], id)
      case None => None
      case Some(k) => Some(k + 1)
  }

  /** `get_default_character`: an empty list raises RuntimeError; otherwise
      the first Mao entry, or else the first entry of the list. */
  function GetDefaultCharacter(chars: seq<CharacterInfo>): (r: Result<CharacterInfo>)
    ensures r.Failure? <==> chars == []
    ensures r.Failure? ==> r.error == RuntimeError
    ensures r.Success? ==> r.value in chars
    ensures r.Success? && (exists i :: 0 <= i < |chars| && chars[i].id == MAO_ID) ==> r.value.id == MAO_ID
    ensures r.Success? && (exists i :: 0 <= i < |chars| && chars[i].id == MAO_ID) ==>
              exists k :: 0 <= k < |chars| && r.value == chars[k] && chars[k].id == MAO_ID
                          && forall j :: 0 <= j < k ==> chars[j].id != MAO_ID
    ensures r.Success? && (forall i :: 0 <= i < |chars| ==> chars[i].id != MAO_ID) ==> r.value == chars[0]
  {
    if chars == [] then Failure(RuntimeError)
    else
      match FindById(chars, MAO_ID)
      case Some(k) => Success(chars[k])
      case None => Success(chars[0])
  }

  /** The default of the built-in list: Mao when its file exists, else Hiyori
      when its file exists, else Miku when its file exists, else an error. */
  lemma {:induction false} DefaultOfBuiltList(root: Path, present: Path -> bool)
    ensures var d := GetDefaultCharacter(BuildCharacters(root, present));
            && (d.Failure? <==> !present(Mao(root).modelPath) && !present(Hiyori(root).modelPath) && !present(Miku(root).modelPath))
            && (present(Mao(root).modelPath) ==> d == Success(Mao(root)))
            && (!present(Mao(root).modelPath) && present(Hiyori(root).modelPath) ==> d == Success(Hiyori(root)))
            && (!present(Mao(root).modelPath) && !present(Hiyori(root).modelPath) && present(Miku(root).modelPath) ==> d == Success(Miku(root)))
  {
    if present(Mao(root).modelPath) {
      DefaultWithMao(root, present);
    } else {
      DefaultWithoutMao(root, present);
    }
  }

  lemma {:induction false} DefaultWithMao(root: Path, present: Path -> bool)
    requires present(Mao(root).modelPath)
    ensures GetDefaultCharacter(BuildCharacters(root, present)) == Success(Mao(root))
  {
    var r := BuildCharacters(root, present);
    assert r[0] == Mao(root);
    assert FindById(r, MAO_ID) == Some(0);
  }

  lemma {:induction false} DefaultWithoutMao(root: Path, present: Path -> bool)
    requires !present(Mao(root).modelPath)
    ensures var d := GetDefaultCharacter(BuildCharacters(root, present));
            && (d.Failure? <==> !present(Hiyori(root).modelPath) && !present(Miku(root).modelPath))
            && (present(Hiyori(root).modelPath) ==> d == Success(Hiyori(root)))
            && (!present(Hiyori(root).modelPath) && present(Miku(root).modelPath) ==> d == Success(Miku(root)))
  {
    var hiyori, miku := Hiyori(root), Miku(root);
    var r := BuildCharacters(root, present);
    assert r == (if present(hiyori.modelPath) then [hiyori] else []) + (if present(miku.modelPath) then [miku] else []);
    RankOfIds();
    assert forall i :: 0 <= i < |r| ==> r[i].id != MAO_ID;
  }
}
