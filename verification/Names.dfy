/** Names of stored files: how a path is built from the uploaded name and the file ID, and that the
    building can be undone. */
module Names {

  type Text = seq<char>

  // ---------- the path functions of the standard library, for slash-separated paths ----------

  /** The position behind the last slash. */
  function AfterSlash(path: Text): (k: nat)
    ensures k <= |path| && '/' !in path[k..] && (k > 0 ==> path[k - 1] == '/')
  {
    if path == [] then 0
    else if path[|path| - 1] == '/' then |path|
    else
      var k := AfterSlash(path[..|path| - 1]);
      assert path[k..] == path[..|path| - 1][k..] + [path[|path| - 1]];
      k
  }

  function TrimSlashes(path: Text): (r: Text)
    ensures r <= path && (r != [] ==> r[|r| - 1] != '/')
    ensures r == [] ==> forall c :: c in path ==> c == '/'
  {
    if path != [] && path[|path| - 1] == '/' then
      assert path == path[..|path| - 1] + ['/'];
      TrimSlashes(path[..|path| - 1])
    else path
  }

  /** The last element of a path: "." for an empty one, "/" if there are only slashes. */
  function Base(path: Text): (r: Text)
    ensures r == "/" || (r != [] && '/' !in r)
  {
    if path == [] then "."
    else
      var trimmed := TrimSlashes(path);
      var last := trimmed[AfterSlash(trimmed)..];
      if last == [] then "/" else last
  }

  /** The position behind the last slash is the only one with this property. */
  lemma SlashIsAt(path: Text, k: nat)
    requires k <= |path| && '/' !in path[k..] && (k > 0 ==> path[k - 1] == '/')
    ensures AfterSlash(path) == k
  {
    var j := AfterSlash(path);
    assert forall i :: j <= i < |path| ==> path[i] == path[j..][i - j];
    assert forall i :: k <= i < |path| ==> path[i] == path[k..][i - k];
  }

  lemma SlashAt(front: Text, last: Text)
    requires '/' !in last
    ensures AfterSlash(front + ['/'] + last) == |front| + 1
  {
    assert (front + ['/'] + last)[|front| + 1..] == last;
    SlashIsAt(front + ['/'] + last, |front| + 1);
  }

  lemma NoSlash(name: Text)
    requires '/' !in name
    ensures AfterSlash(name) == 0
  {
    assert forall i :: 0 <= i < |name| ==> name[i] in name;
  }

  lemma NotTrimmed(path: Text)
    requires path != [] && path[|path| - 1] != '/'
    ensures TrimSlashes(path) == path
  {
  }

  /** The last element of a path is what stands behind its last slash: a name without a slash is its own last
      element, whatever path it is put behind. Slashes at the end do not count. */
  lemma LastElement(name: Text, front: Text)
    requires name != [] && '/' !in name
    ensures Base(name) == name
    ensures Base(front + ['/'] + name) == name
  {
    assert name[|name| - 1] in name;
    NotTrimmed(name);
    NoSlash(name);
    var path := front + ['/'] + name;
    assert path[|path| - 1] == name[|name| - 1];
    NotTrimmed(path);
    SlashAt(front, name);
    assert path[|front| + 1..] == name;
  }

  lemma {:induction false} TrailingSlashes(path: Text, slashes: Text)
    requires path != [] && forall c :: c in slashes ==> c == '/'
    ensures Base(path + slashes) == Base(path)
    decreases |slashes|
  {
    if slashes == [] {
      assert path + slashes == path;
    } else {
      var init := slashes[..|slashes| - 1];
      assert slashes == init + ['/'] by { assert slashes[|slashes| - 1] in slashes; }
      forall c | c in init ensures c == '/' { assert c in slashes; }
      assert (path + slashes)[..|path + slashes| - 1] == path + init;
      TrailingSlashes(path, init);
      assert TrimSlashes(path + slashes) == TrimSlashes(path + init);
    }
  }

  /** Where the extension starts: at the last dot, if no slash follows it; otherwise behind the end. */
  function ExtStart(path: Text): (k: nat)
    ensures k <= |path|
    ensures k < |path| ==> path[k] == '.' && forall i :: k < i < |path| ==> path[i] != '.' && path[i] != '/'
    ensures k == |path| ==> forall i :: 0 <= i < |path| && path[i] == '.' ==> exists j :: i < j < |path| && path[j] == '/'
  {
    if path == [] || path[|path| - 1] == '/' then |path|
    else if path[|path| - 1] == '.' then |path| - 1
    else
      var init := path[..|path| - 1];
      var k := ExtStart(init);
      assert forall i :: 0 <= i < |init| ==> path[i] == init[i];
      if k == |init| then |path| else k
  }

  /** The extension of the last element: from its last dot on, empty without a dot. */
  function Ext(path: Text): (r: Text)
    ensures r == [] || (r[0] == '.' && '.' !in r[1..] && '/' !in r)
    ensures |r| <= |path| && path[|path| - |r|..] == r
  {
    path[ExtStart(path)..]
  }

  function TrimSuffix(text: Text, suffix: Text): Text {
    if |suffix| <= |text| && text[|text| - |suffix|..] == suffix then text[..|text| - |suffix|] else text
  }

  // ---------- what the service makes of them ----------

  /** The text form of a UUID: 36 characters, hexadecimal digits and hyphens. */
  const UUID_LENGTH: nat := 36

  predicate IsUuid(id: Text) {
    |id| == UUID_LENGTH && forall k :: 0 <= k < |id| ==> '0' <= id[k] <= '9' || 'a' <= id[k] <= 'f' || id[k] == '-'
  }

  /** What the service makes of an uploaded name: one element of a path, or "/". */
  predicate IsSafe(name: Text) { name == "/" || (name != [] && '/' !in name) }

  function SafeName(filename: Text): (r: Text)
    ensures IsSafe(r) && r != "."
  {
    var base := Base(filename);
    if base == "" || base == "." then "unnamed" else base
  }

  function BuildStorageFilename(safeName: Text, id: Text): Text {
    var ext := Ext(safeName);
    var trimmed := TrimSuffix(safeName, ext);
    var base := if trimmed == "" then "unnamed" else trimmed;
    if ext == "" then base + "_" + id else base + "_" + id + ext
  }

  // ---------- it can be undone ----------

  /** The ID in a stored name: the characters before the extension. */
  function IdIn(stored: Text): Text {
    var stem := TrimSuffix(stored, Ext(stored));
    if |stem| < UUID_LENGTH then [] else stem[|stem| - UUID_LENGTH..]
  }

  /** A text without dots and slashes continues the extension of what stands before it. */
  lemma ExtOfPlain(front: Text, plain: Text)
    requires '.' !in plain && '/' !in plain
    ensures Ext(front + plain) == if Ext(front) == [] then [] else Ext(front) + plain
  {
    var k, m, whole := ExtStart(front), ExtStart(front + plain), front + plain;
    assert forall i :: |front| <= i < |whole| ==> whole[i] == plain[i - |front|] && whole[i] in plain;
    assert forall i :: 0 <= i < |front| ==> whole[i] == front[i];
    if k < |front| {
      assert whole[k] == '.' && k <= m;
      assert m == k;
      assert whole[k..] == front[k..] + plain;
    }
  }

  /** An extension is all there is to the extension of what it stands behind. */
  lemma ExtOfExt(front: Text, ext: Text)
    requires ext != [] && ext[0] == '.' && '.' !in ext[1..] && '/' !in ext
    ensures Ext(front + ext) == ext
  {
    var m, whole := ExtStart(front + ext), front + ext;
    assert forall i :: |front| < i < |whole| ==> whole[i] == ext[1..][i - |front| - 1] && whole[i] in ext;
    assert whole[|front|] == '.';
    assert m == |front|;
    assert whole[|front|..] == ext;
  }

  lemma NoDots(text: Text)
    requires '.' !in text
    ensures Ext(text) == []
  {
    assert forall i :: 0 <= i < |text| ==> text[i] in text;
  }

  lemma UuidIsPlain(id: Text)
    requires IsUuid(id)
    ensures '.' !in id && '/' !in id
  {
  }

  /** The stored name ends in its ID and the extension of the uploaded name, which is still its extension. */
  lemma StoredName(safeName: Text, id: Text)
    requires IsUuid(id)
    ensures var stored, ext := BuildStorageFilename(safeName, id), Ext(safeName);
      && Ext(stored) == ext
      && |stored| > |ext| + UUID_LENGTH
      && stored[|stored| - |ext|..] == ext
      && stored[|stored| - |ext| - UUID_LENGTH..|stored| - |ext|] == id
  {
    var stored, ext := BuildStorageFilename(safeName, id), Ext(safeName);
    var trimmed := TrimSuffix(safeName, ext);
    var base := if trimmed == "" then "unnamed" else trimmed;
    UuidIsPlain(id);
    assert stored == (base + "_") + id + ext;
    if ext == "" {
      assert stored == (base + "_") + id;
      assert trimmed == safeName;
      NoDots("unnamed");
      ExtOfPlain(base, "_");
      ExtOfPlain(base + "_", id);
    } else {
      ExtOfExt((base + "_") + id, ext);
    }
  }

  /** ID and extension can be read off a stored name, whatever name was uploaded. */
  lemma IdAndExtensionRecovered(safeName: Text, id: Text)
    requires IsUuid(id)
    ensures IdIn(BuildStorageFilename(safeName, id)) == id
    ensures Ext(BuildStorageFilename(safeName, id)) == Ext(safeName)
  {
    StoredName(safeName, id);
    IdBefore(BuildStorageFilename(safeName, id), Ext(safeName), id);
  }

  lemma IdBefore(stored: Text, ext: Text, id: Text)
    requires Ext(stored) == ext && |id| == UUID_LENGTH && |stored| > |ext| + UUID_LENGTH
    requires stored[|stored| - |ext|..] == ext && stored[|stored| - |ext| - UUID_LENGTH..|stored| - |ext|] == id
    ensures IdIn(stored) == id
  {
    var stem := stored[..|stored| - |ext|];
    assert TrimSuffix(stored, ext) == stem;
    assert stem[|stem| - UUID_LENGTH..] == stored[|stored| - |ext| - UUID_LENGTH..|stored| - |ext|];
  }

  /** Two stored names are equal only if the IDs and the extensions are. */
  lemma StoredNamesDiffer(name1: Text, id1: Text, name2: Text, id2: Text)
    requires IsUuid(id1) && IsUuid(id2)
    requires BuildStorageFilename(name1, id1) == BuildStorageFilename(name2, id2)
    ensures id1 == id2 && Ext(name1) == Ext(name2)
  {
    IdAndExtensionRecovered(name1, id1);
    IdAndExtensionRecovered(name2, id2);
  }

  // ---------- where the file lies ----------

  /** An absolute path as its list of elements. */
  type Path = seq<Text>

  function Split(text: Text): (r: Path)
    ensures '/' !in text ==> r == [text]
  {
    var k := AfterSlash(text);
    if k == 0 then [text] else Split(text[..k - 1]) + [text[k..]]
  }

  /** One element of a path that is being cleaned: an empty one and "." vanish, ".." takes its parent with
      it, as far as there is one. */
  function Enter(path: Path, element: Text): Path {
    if element == "" || element == "." then path
    else if element == ".." then (if path == [] then [] else path[..|path| - 1])
    else path + [element]
  }

  function Walk(path: Path, elements: Path): Path
    decreases |elements|
  {
    if elements == [] then path else Walk(Enter(path, elements[0]), elements[1..])
  }

  /** Cleaning up: "." and empty elements vanish, ".." undoes the element before it, an ordinary element stays;
      and whatever the elements, nothing but ordinary ones is left, so the path never leaves the root. */
  lemma {:induction false} WalkCleans(path: Path, elements: Path)
    requires (forall e :: e in path ==> Ordinary(e)) && forall e :: e in elements ==> '/' !in e
    ensures forall e :: e in Walk(path, elements) ==> Ordinary(e)
    decreases |elements|
  {
    if elements != [] {
      assert elements[0] in elements;
      WalkCleans(Enter(path, elements[0]), elements[1..]);
    }
  }

  lemma WalkUndoes(path: Path, element: Text, rest: Path)
    requires Ordinary(element)
    ensures Walk(path, [element] + rest) == Walk(path + [element], rest)
    ensures Walk(path + [element], [".."] + rest) == Walk(path, rest)
    ensures Walk(path, ["."] + rest) == Walk(path, [""] + rest) == Walk(path, rest) && Walk([], [".."] + rest) == Walk([], rest)
  {
    assert ([element] + rest)[1..] == rest && ([".."] + rest)[1..] == rest && (["."] + rest)[1..] == rest && ([""] + rest)[1..] == rest;
    assert (path + [element])[..|path|] == path;
  }

  predicate Ordinary(element: Text) { element != "" && element != "." && element != ".." && '/' !in element }

  /** The root folder, which is a clean path, joined with the user's folder and the built name. */
  function StoragePath(root: Path, user: Text, safeName: Text, id: Text): Path {
    Walk(Enter(root, user), Split(BuildStorageFilename(safeName, id)))
  }

  /** The name of the stored file in its folder. Only a name of nothing but slashes brings a slash along. */
  function Leaf(safeName: Text, id: Text): Text {
    if safeName == "/" then "_" + id else BuildStorageFilename(safeName, id)
  }

  lemma SplitSlash(text: Text)
    requires '/' !in text
    ensures Split(['/'] + text) == ["", text]
  {
    var whole := ['/'] + text;
    assert whole[0] == '/' && whole[1..] == text;
    assert forall i :: 1 <= i < |whole| ==> whole[i] == text[i - 1] && text[i - 1] in text;
    assert '/' in whole;
    assert whole[0..] == whole;
    assert AfterSlash(whole) == 1;
    assert whole[..0] == "";
  }

  lemma SlashOnly(id: Text)
    requires IsUuid(id)
    ensures BuildStorageFilename("/", id) == ['/'] + ("_" + id)
    ensures IdIn("_" + id) == id && Ext("_" + id) == Ext("/") == [] && Ordinary("_" + id)
  {
    Underscored(id, "_" + id);
    assert TrimSuffix("/", []) == "/";
    assert "/" + "_" + id == ['/'] + ("_" + id);
  }

  lemma Underscored(id: Text, leaf: Text)
    requires IsUuid(id) && leaf == "_" + id
    ensures IdIn(leaf) == id && Ext(leaf) == [] && Ordinary(leaf)
  {
    UuidIsPlain(id);
    assert |leaf| == UUID_LENGTH + 1 && leaf[1..] == id;
    assert '.' !in leaf && '/' !in leaf by {
      assert forall k :: 1 <= k < |leaf| ==> leaf[k] == id[k - 1] && id[k - 1] in id;
      assert leaf[0] == '_';
    }
    NoDots(leaf);
    assert TrimSuffix(leaf, []) == leaf;
  }

  /** The leaf is an ordinary name, from which the ID and the extension of the uploaded name can be read. */
  lemma LeafOrdinary(safeName: Text, id: Text)
    requires IsUuid(id) && IsSafe(safeName)
    ensures Ordinary(Leaf(safeName, id)) && IdIn(Leaf(safeName, id)) == id && Ext(Leaf(safeName, id)) == Ext(safeName)
  {
    if safeName == "/" {
      SlashOnly(id);
    } else {
      NamedLeaf(safeName, id);
    }
  }

  lemma NamedLeaf(safeName: Text, id: Text)
    requires IsUuid(id) && safeName != [] && '/' !in safeName
    ensures var stored := BuildStorageFilename(safeName, id);
      Ordinary(stored) && IdIn(stored) == id && Ext(stored) == Ext(safeName)
  {
    IdAndExtensionRecovered(safeName, id);
    StoredName(safeName, id);
    NoSlashIn(safeName, id);
    LongIsOrdinary(BuildStorageFilename(safeName, id));
  }

  lemma LongIsOrdinary(text: Text)
    requires |text| > UUID_LENGTH && '/' !in text
    ensures Ordinary(text)
  {
  }

  lemma NoSlashIn(safeName: Text, id: Text)
    requires IsUuid(id) && '/' !in safeName
    ensures '/' !in BuildStorageFilename(safeName, id)
  {
    var ext := Ext(safeName);
    var trimmed := TrimSuffix(safeName, ext);
    UuidIsPlain(id);
    assert '/' !in trimmed && '/' !in ext && '/' !in "unnamed" && '/' !in "_";
  }

  lemma LeafInFolder(folder: Path, safeName: Text, id: Text)
    requires IsUuid(id) && IsSafe(safeName)
    ensures Walk(folder, Split(BuildStorageFilename(safeName, id))) == folder + [Leaf(safeName, id)]
  {
    var leaf := Leaf(safeName, id);
    LeafOrdinary(safeName, id);
    if safeName == "/" {
      SlashOnly(id);
      SplitSlash(leaf);
      assert ["", leaf][1..] == [leaf];
    }
    assert Walk(folder, [leaf]) == folder + [leaf];
  }

  lemma EnterUser(root: Path, user: Text)
    requires Ordinary(user)
    ensures Enter(root, user) == root + [user]
  {
  }

  /** Whatever name is uploaded, the file lies directly in the folder of its user, under its leaf name. */
  lemma DirectChild(root: Path, user: Text, safeName: Text, id: Text)
    requires Ordinary(user) && IsUuid(id) && IsSafe(safeName)
    ensures StoragePath(root, user, safeName, id) == root + [user] + [Leaf(safeName, id)]
  {
    EnterUser(root, user);
    LeafInFolder(root + [user], safeName, id);
  }

  lemma LastTwo(root: Path, user1: Text, leaf1: Text, user2: Text, leaf2: Text)
    requires root + [user1] + [leaf1] == root + [user2] + [leaf2]
    ensures user1 == user2 && leaf1 == leaf2
  {
    var path := root + [user1] + [leaf1];
    assert path[|root|] == user1 && path[|root| + 1] == leaf1;
    assert path == root + [user2] + [leaf2];
    assert path[|root|] == user2 && path[|root| + 1] == leaf2;
  }

  /** No two files share a path: it determines the user, the ID and the extension. */
  lemma PathsDiffer(root: Path, user1: Text, name1: Text, id1: Text, user2: Text, name2: Text, id2: Text)
    requires Ordinary(user1) && Ordinary(user2) && IsUuid(id1) && IsUuid(id2) && IsSafe(name1) && IsSafe(name2)
    requires StoragePath(root, user1, name1, id1) == StoragePath(root, user2, name2, id2)
    ensures user1 == user2 && id1 == id2 && Ext(name1) == Ext(name2)
  {
    DirectChild(root, user1, name1, id1);
    DirectChild(root, user2, name2, id2);
    LastTwo(root, user1, Leaf(name1, id1), user2, Leaf(name2, id2));
    LeafOrdinary(name1, id1);
    LeafOrdinary(name2, id2);
  }

  lemma EdgeExt(name: Text, k: nat)
    requires k < |name| && name[k] == '.' && forall i :: k < i < |name| ==> name[i] != '.' && name[i] != '/'
    ensures Ext(name) == name[k..]
  {
    assert ExtStart(name) == k;
  }

  /** A name whose last dot is at position k: the ID goes in front of it. */
  lemma BuildAtDot(name: Text, k: nat, id: Text)
    requires k < |name| && name[k] == '.' && forall i :: k < i < |name| ==> name[i] != '.' && name[i] != '/'
    ensures BuildStorageFilename(name, id) == (if k == 0 then "unnamed" else name[..k]) + "_" + id + name[k..]
  {
    EdgeExt(name, k);
    assert |name[k..]| == |name| - k && name[|name| - |name[k..]|..] == name[k..];
    assert TrimSuffix(name, name[k..]) == name[..k];
  }

  /** A hidden file is stored as "unnamed" with its whole name as extension. */
  lemma HiddenName(id: Text, hidden: Text)
    requires '.' !in hidden && '/' !in hidden
    ensures BuildStorageFilename(['.'] + hidden, id) == "unnamed" + "_" + id + (['.'] + hidden)
  {
    var name := ['.'] + hidden;
    assert forall i :: 0 < i < |name| ==> name[i] == hidden[i - 1] && hidden[i - 1] in hidden;
    BuildAtDot(name, 0, id);
    assert name[0..] == name;
  }

  /** A name that ends in a dot keeps it at the end. */
  lemma TrailingDot(id: Text, stem: Text)
    requires stem != []
    ensures BuildStorageFilename(stem + ['.'], id) == stem + "_" + id + ['.']
  {
    var name := stem + ['.'];
    BuildAtDot(name, |stem|, id);
    assert name[..|stem|] == stem && name[|stem|..] == ['.'];
  }

  /** What an upload is stored as: under its own name, with the ID put in front of the extension. `name` is the
      last element of the uploaded filename, with any path before it and any slashes behind it; `stem` is the
      name without its extension. */
  lemma UploadedName(front: Text, stem: Text, ext: Text, slashes: Text, id: Text)
    requires IsUuid(id) && '/' !in stem && stem + ext != [] && stem + ext != ['.'] && forall c :: c in slashes ==> c == '/'
    requires if ext == [] then '.' !in stem else ext[0] == '.' && '.' !in ext[1..] && '/' !in ext
    ensures var name := stem + ext;
      && SafeName(name + slashes) == name && SafeName(front + ['/'] + name + slashes) == name
      && Leaf(name, id) == (if stem == [] then "unnamed" else stem) + "_" + id + ext
      && Ext(Leaf(name, id)) == Ext(name) == ext
  {
    var name := stem + ext;
    assert '/' !in name;
    LastElement(name, front);
    TrailingSlashes(name, slashes);
    TrailingSlashes(front + ['/'] + name, slashes);
    LeafOrdinary(name, id);
    LeafOf(stem, ext, id);
  }

  lemma LeafOf(stem: Text, ext: Text, id: Text)
    requires '/' !in stem && stem + ext != []
    requires if ext == [] then '.' !in stem else ext[0] == '.' && '.' !in ext[1..] && '/' !in ext
    ensures Ext(stem + ext) == ext
    ensures Leaf(stem + ext, id) == (if stem == [] then "unnamed" else stem) + "_" + id + ext
  {
    var name := stem + ext;
    assert '/' !in name && "/"[0] == '/';
    if ext == [] {
      assert name == stem;
      NoDots(name);
      assert TrimSuffix(name, []) == name;
    } else {
      ExtOfExt(stem, ext);
      assert TrimSuffix(name, ext) == stem;
    }
  }

  /** And where: in the folder of its user, whatever path the filename came with. */
  lemma UploadedPath(root: Path, user: Text, front: Text, stem: Text, ext: Text, slashes: Text, id: Text)
    requires Ordinary(user) && IsUuid(id) && '/' !in stem && stem + ext != [] && stem + ext != ['.'] && forall c :: c in slashes ==> c == '/'
    requires if ext == [] then '.' !in stem else ext[0] == '.' && '.' !in ext[1..] && '/' !in ext
    ensures var path := root + [user] + [(if stem == [] then "unnamed" else stem) + "_" + id + ext];
      && StoragePath(root, user, SafeName(stem + ext + slashes), id) == path
      && StoragePath(root, user, SafeName(front + ['/'] + (stem + ext) + slashes), id) == path
  {
    UploadedName(front, stem, ext, slashes, id);
    DirectChild(root, user, stem + ext, id);
  }

  /** The uploaded names at the edges: empty, "." and "/". */
  lemma EdgeNames()
    ensures SafeName([]) == "unnamed" && SafeName(['.']) == "unnamed" && SafeName(['/']) == "/"
  {
    assert TrimSlashes([]) == [];
    assert ['/'][..0] == [];
    assert TrimSlashes(['/']) == [];
    assert ['.'][..0] == [];
    assert AfterSlash(['.']) == 0;
  }
}
