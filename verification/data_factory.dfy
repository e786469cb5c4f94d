/** The JSON request bodies of the pet operations. Every body is a fixed
    template into which the arguments are spliced verbatim, without any
    escaping. */
module DataFactory {
  import opened Text

  const DEFAULT_CATEGORY := "Dogs"
  const DEFAULT_STATUS := "available"
  const DEFAULT_PHOTO_URL := "https://example.com/photo.jpg"

  /** The opening line every pet body shares. */
  function IdLine(id: string): string {
    "{\n" + "  \"id\": " + id + ",\n"
  }

  /** `addNewPetBodyComplete`: the body with every variable part supplied. */
  function CompletePetBody(id: string, name: string, categoryName: string, status: string, tagName: string): (r: string)
    ensures |r| == 210 + |id| + |name| + |categoryName| + |status| + |tagName|
    ensures r[0] == '{' && r[|r| - 1] == '}'
  {
    "{\n" +
    "  \"id\": " + id + ",\n" +
    "  \"category\": {\n" +
    "    \"id\": 1,\n" +
    "    \"name\": \"" + categoryName + "\"\n" +
    "  },\n" +
    "  \"name\": \"" + name + "\",\n" +
    "  \"photoUrls\": [\n" +
    "    \"" + DEFAULT_PHOTO_URL + "\"\n" +
    "  ],\n" +
    "  \"tags\": [\n" +
    "    {\n" +
    "      \"id\": 1,\n" +
    "      \"name\": \"" + tagName + "\"\n" +
    "    }\n" +
    "  ],\n" +
    "  \"status\": \"" + status + "\"\n" +
    "}"
  }

  /** `addNewPetBody(id, name, status)`: default category, one "friendly" tag. */
  function AddNewPetBodyWithStatus(id: string, name: string, status: string): (r: string)
    ensures r == CompletePetBody(id, name, "Dogs", status, "friendly")
  {
    "{\n" +
    "  \"id\": " + id + ",\n" +
    "  \"category\": {\n" +
    "    \"id\": 1,\n" +
    "    \"name\": \"" + DEFAULT_CATEGORY + "\"\n" +
    "  },\n" +
    "  \"name\": \"" + name + "\",\n" +
    "  \"photoUrls\": [\n" +
    "    \"" + DEFAULT_PHOTO_URL + "\"\n" +
    "  ],\n" +
    "  \"tags\": [\n" +
    "    {\n" +
    "      \"id\": 1,\n" +
    "      \"name\": \"friendly\"\n" +
    "    }\n" +
    "  ],\n" +
    "  \"status\": \"" + status + "\"\n" +
    "}"
  }

  /** `addNewPetBody(id, name)`: the default status. */
  function AddNewPetBody(id: string, name: string): (r: string)
    ensures r == CompletePetBody(id, name, "Dogs", "available", "friendly")
  {
    AddNewPetBodyWithStatus(id, name, DEFAULT_STATUS)
  }

  /** `updatePetBody(id, name, tag, status)`: default category, the given tag. */
  function UpdatePetBodyWithStatus(id: string, updateName: string, tagName: string, status: string): (r: string)
    ensures r == CompletePetBody(id, updateName, "Dogs", status, tagName)
  {
    "{\n" +
    "  \"id\": " + id + ",\n" +
    "  \"category\": {\n" +
    "    \"id\": 1,\n" +
    "    \"name\": \"" + DEFAULT_CATEGORY + "\"\n" +
    "  },\n" +
    "  \"name\": \"" + updateName + "\",\n" +
    "  \"photoUrls\": [\n" +
    "    \"" + DEFAULT_PHOTO_URL + "\"\n" +
    "  ],\n" +
    "  \"tags\": [\n" +
    "    {\n" +
    "      \"id\": 1,\n" +
    "      \"name\": \"" + tagName + "\"\n" +
    "    }\n" +
    "  ],\n" +
    "  \"status\": \"" + status + "\"\n" +
    "}"
  }

  /** `updatePetBody(id, name, tag)`: the default status. */
  function UpdatePetBody(id: string, updateName: string, tagName: string): (r: string)
    ensures r == CompletePetBody(id, updateName, "Dogs", "available", tagName)
  {
    UpdatePetBodyWithStatus(id, updateName, tagName, DEFAULT_STATUS)
  }

  /** `minimalPetBody`: id, name and a placeholder photo list only. */
  function MinimalPetBody(id: string, name: string): (r: string)
    ensures IdLine(id) <= r
    ensures |r| == 53 + |id| + |name|
  {
    "{\n" +
    "  \"id\": " + id + ",\n" +
    "  \"name\": \"" + name + "\",\n" +
    "  \"photoUrls\": [\"string\"]\n" +
    "}"
  }

  /** `invalidPetBodyMissingPhotoUrls`: id and a fixed name, no photo list. */
  function InvalidPetBodyMissingPhotoUrls(id: string): (r: string)
    ensures IdLine(id) <= r
    ensures |r| == 33 + |id|
  {
    "{\n" +
    "  \"id\": " + id + ",\n" +
    "  \"name\": \"TestPet\"\n" +
    "}"
  }

  /** `invalidPetBodyWrongType`: a string where the id number belongs. It
      is the minimal body for "TestPet" with a quoted id, so the id is a
      JSON string rather than a number. */
  function InvalidPetBodyWrongType(): (r: string)
    ensures r == MinimalPetBody("\"not-a-number\"", "TestPet")
  {
    WrongTypeLines();
    "{\n" +
    "  \"id\": \"not-a-number\",\n" +
    "  \"name\": \"TestPet\",\n" +
    "  \"photoUrls\": [\"string\"]\n" +
    "}"
  }

  /** The id and name lines of the wrong-type body, split where the
      minimal body splices its arguments. */
  lemma WrongTypeLines()
    ensures "  \"id\": \"not-a-number\",\n" == "  \"id\": " + "\"not-a-number\"" + ",\n"
    ensures "  \"name\": \"TestPet\",\n" == "  \"name\": \"" + "TestPet" + "\",\n"
  {
  }

  /** One element of the tag list, numbered `n`. */
  function TagObject(n: int, name: string): string {
    "    {\n" + "      \"id\": " + IntToString(n) + ",\n" + "      \"name\": \"" + name + "\"\n" + "    }"
  }

  /** The tag objects for `names`, numbered from 1 in input order. */
  function TagObjects(names: seq<string>): (objs: seq<string>)
    ensures |objs| == |names|
    ensures forall i :: 0 <= i < |names| ==> objs[i] == TagObject(i + 1, names[i])
  {
    seq(|names|, i requires 0 <= i < |names| => TagObject(i + 1, names[i]))
  }

  /** The tag list inside `petBodyWithMultipleTags`. */
  function TagBlock(names: seq<string>): string {
    Join(",\n", TagObjects(names))
  }

  /** One turn of the loop: appending the next object, then the separator
      unless it was the last, keeps the text equal to the objects so far
      joined by ",\n", followed by a pending separator when more follow. */
  lemma TagLoopStep(objs: seq<string>, i: int, tags: string)
    requires 0 <= i < |objs|
    requires tags == Join(",\n", objs[..i]) + (if 0 < i then ",\n" else "")
    ensures tags + objs[i] + (if i < |objs| - 1 then ",\n" else "")
            == Join(",\n", objs[..i + 1]) + (if 0 < i + 1 < |objs| then ",\n" else "")
  {
    assert objs[..i + 1] == objs[..i] + [objs[i]];
    JoinSnoc(",\n", objs[..i], objs[i]);
  }

  /** The `StringBuilder` loop of `petBodyWithMultipleTags`: each tag object
      in turn, followed by ",\n" unless it is the last. The result is the tag
      objects joined by ",\n", with no trailing separator. */
  method BuildTagBlock(names: seq<string>) returns (tags: string)
    ensures tags == Join(",\n", TagObjects(names))
  {
    ghost var objs := TagObjects(names);
    tags := "";
    var i := 0;
    while i < |names|
      invariant 0 <= i <= |names|
      invariant tags == Join(",\n", objs[..i]) + (if 0 < i < |names| then ",\n" else "")
    {
      TagLoopStep(objs, i, tags);
      tags := tags + TagObject(i + 1, names[i]);
      if i < |names| - 1 {
        tags := tags + ",\n";
      }
      i := i + 1;
    }
    assert objs[..i] == objs;
  }

  /** `petBodyWithMultipleTags`: default category and status, the given tags. */
  function PetBodyWithMultipleTags(id: string, name: string, tagNames: seq<string>): (r: string)
    ensures |r| == 180 + |id| + |name| + |TagBlock(tagNames)|
    ensures r[0] == '{' && r[|r| - 1] == '}'
  {
    "{\n" +
    "  \"id\": " + id + ",\n" +
    "  \"category\": {\n" +
    "    \"id\": 1,\n" +
    "    \"name\": \"" + DEFAULT_CATEGORY + "\"\n" +
    "  },\n" +
    "  \"name\": \"" + name + "\",\n" +
    "  \"photoUrls\": [\n" +
    "    \"" + DEFAULT_PHOTO_URL + "\"\n" +
    "  ],\n" +
    "  \"tags\": [\n" +
    TagBlock(tagNames) + "\n" +
    "  ],\n" +
    "  \"status\": \"" + DEFAULT_STATUS + "\"\n" +
    "}"
  }

  /** `petBodyWithStatus`: the add-pet body with the given status. */
  function PetBodyWithStatus(id: string, name: string, status: string): (r: string)
    ensures r == CompletePetBody(id, name, "Dogs", status, "friendly")
  {
    AddNewPetBodyWithStatus(id, name, status)
  }

  // ---------------------------------------------------------------------
  // How the overloads relate

  /** The opening of the first tag object, as the loop renders it and as
      the complete body spells it. */
  lemma FirstTagOpening()
    ensures "    {\n" + "      \"id\": " + IntToString(1) + ",\n" + "      \"name\": \""
            == "    {\n" + "      \"id\": 1,\n" + "      \"name\": \""
  {
    assert IntToString(1) == "1";
  }

  /** The closing of the single tag object and of the tag list. */
  lemma SingleTagClosing()
    ensures "\"\n" + "    }" + "\n" + "  ],\n" == "\"\n" + "    }\n" + "  ],\n"
  {
  }

  /** Regrouping a concatenation of five parts. */
  lemma Regroup(p: string, a: string, t: string, b: string, c: string)
    ensures p + (a + t + b) + c == p + a + t + (b + c)
  {
  }

  /** The single tag object, closed by the list's closing line, spells out
      the tag section of the complete body. */
  lemma SingleTagSection(p: string, tagName: string)
    ensures p + TagObject(1, tagName) + "\n" + "  ],\n"
            == p + "    {\n" + "      \"id\": 1,\n" + "      \"name\": \"" + tagName + "\"\n" + "    }\n" + "  ],\n"
  {
    var open := "    {\n" + "      \"id\": 1,\n" + "      \"name\": \"";
    FirstTagOpening();
    SingleTagClosing();
    assert TagObject(1, tagName) == open + tagName + ("\"\n" + "    }");
    Regroup(p, open, tagName, "\"\n" + "    }", "\n" + "  ],\n");
    assert p + TagObject(1, tagName) + "\n" + "  ],\n" == p + TagObject(1, tagName) + ("\n" + "  ],\n");
    assert p + open + tagName + ("\"\n" + "    }" + ("\n" + "  ],\n"))
        == p + open + tagName + "\"\n" + "    }\n" + "  ],\n";
  }

  /** With a single tag, the multi-tag body is the complete body. */
  lemma SingleTagBodyIsComplete(id: string, name: string, tagName: string)
    ensures PetBodyWithMultipleTags(id, name, [tagName]) == CompletePetBody(id, name, "Dogs", "available", tagName)
  {
    assert TagBlock([tagName]) == TagObject(1, tagName);
    var p := "{\n" +
      "  \"id\": " + id + ",\n" +
      "  \"category\": {\n" +
      "    \"id\": 1,\n" +
      "    \"name\": \"" + "Dogs" + "\"\n" +
      "  },\n" +
      "  \"name\": \"" + name + "\",\n" +
      "  \"photoUrls\": [\n" +
      "    \"" + DEFAULT_PHOTO_URL + "\"\n" +
      "  ],\n" +
      "  \"tags\": [\n";
    SingleTagSection(p, tagName);
  }

  /** With n tags the tag list holds the n objects and exactly n - 1
      separators ",\n": none before the first and none after the last. */
  lemma TagBlockSeparators(names: seq<string>)
    requires |names| >= 1
    ensures |TagBlock(names)| == TotalLength(TagObjects(names)) + 2 * (|names| - 1)
  {
    JoinLength(",\n", TagObjects(names));
  }

  /** Without tags the tag list is empty: no object and no separator. */
  lemma NoTagsGiveEmptyBlock()
    ensures TagBlock([]) == ""
  {
  }

  /** A numeric id leaves the invalid body without any `photoUrls` key. */
  lemma InvalidBodyLacksPhotoUrls(id: string)
    requires AllDigits(id)
    ensures !Contains(InvalidPetBodyMissingPhotoUrls(id), "photoUrls")
  {
    var body := InvalidPetBodyMissingPhotoUrls(id);
    assert 'U' !in id;
    assert 'U' !in body;
    if Contains(body, "photoUrls") {
      ContainsKeepsChars(body, "photoUrls", 5);
      assert false;
    }
  }
}
