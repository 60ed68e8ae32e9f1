/** Renaming, picture upload and MP bookkeeping for a pet (server/petCustomization.ts).
    The image resize and the object-store upload are foreign calls: the stored URL is
    a parameter. A thrown Error is an `Err` carrying its message. */
module PetCustomization {
  import opened Wrappers
  import opened Schema

  const EmptyNameMessage: string := "宠物名字不能为空"
  const LongNameMessage: string := "宠物名字过长，最多64个字符"
  const BadImageMessage: string := "只支持JPG和PNG格式的图片"
  const NoPetMessage: string := "宠物不存在"
  const LowMpMessage: string := "蓝量不足"
  const MaxNameLength: int := 64

  /** The characters `String.prototype.trim` removes: ECMAScript WhiteSpace and
      LineTerminator. */
  predicate IsJsSpace(c: char)
  {
    || c == '\t' || c == '\n' || c == '\U{000B}' || c == '\U{000C}' || c == '\r' || c == ' '
    || c == '\U{00A0}' || c == '\U{1680}' || ('\U{2000}' <= c <= '\U{200A}')
    || c == '\U{2028}' || c == '\U{2029}' || c == '\U{202F}' || c == '\U{205F}'
    || c == '\U{3000}' || c == '\U{FEFF}'
  }

  predicate AllSpace(s: string)
  {
    forall i :: 0 <= i < |s| ==> IsJsSpace(s[i])
  }

  /** Leading spaces removed: the longest suffix not starting with a space. */
  function TrimStart(s: string): (r: string)
    ensures |r| <= |s| && r == s[|s| - |r|..]
    ensures AllSpace(s[..|s| - |r|])
    ensures |r| == 0 || !IsJsSpace(r[0])
  {
    if |s| == 0 || !IsJsSpace(s[0]) then s
    else
      var rest := TrimStart(s[1..]);
      assert s[1..][..|s| - 1 - |rest|] == s[1..|s| - |rest|];
      rest
  }

  /** Trailing spaces removed: the longest prefix not ending with a space. */
  function TrimEnd(s: string): (r: string)
    ensures |r| <= |s| && r == s[..|r|]
    ensures AllSpace(s[|r|..])
    ensures |r| == 0 || !IsJsSpace(r[|r| - 1])
  {
    if |s| == 0 || !IsJsSpace(s[|s| - 1]) then s
    else
      var rest := TrimEnd(s[..|s| - 1]);
      assert s[..|s| - 1][|rest|..] == s[|rest|..|s| - 1];
      rest
  }

  /** `s.trim()` */
  function Trim(s: string): (r: string)
  {
    TrimEnd(TrimStart(s))
  }

  /** The trimmed string is a slice of the original with only spaces cut off both
      ends, and it neither starts nor ends with a space. */
  lemma TrimIsSlice(s: string)
    ensures exists a, b :: 0 <= a <= b <= |s| && Trim(s) == s[a..b] && AllSpace(s[..a]) && AllSpace(s[b..])
    ensures |Trim(s)| == 0 || (!IsJsSpace(Trim(s)[0]) && !IsJsSpace(Trim(s)[|Trim(s)| - 1]))
  {
    var t := TrimStart(s);
    var a := |s| - |t|;
    var r := TrimEnd(t);
    var b := a + |r|;
    assert r == t[..|r|] == s[a..b];
    assert t[|r|..] == s[b..];
    if |r| > 0 {
      assert r[0] == t[0];
    }
  }

  /** Trimming leaves nothing exactly when the string is all spaces. */
  lemma {:induction false} TrimEmptyIffAllSpace(s: string)
    ensures |Trim(s)| == 0 <==> AllSpace(s)
  {
    var t := TrimStart(s);
    if |Trim(s)| == 0 {
      assert t[0..] == t;
      assert s[..|s|] == s;
    } else if |t| > 0 {
      assert t[0] == s[|s| - |t|];
    }
  }

  /** A character outside the Basic Multilingual Plane, stored as a surrogate pair. */
  predicate Astral(c: char)
  {
    c as int > 0xFFFF
  }

  /** A string's `.length` in JavaScript: its UTF-16 code units, two for each astral
      character and one for every other. */
  function Utf16Length(s: string): (n: nat)
    ensures |s| <= n <= 2 * |s|
    ensures n == |s| <==> forall i :: 0 <= i < |s| ==> !Astral(s[i])
    ensures n == 2 * |s| <==> forall i :: 0 <= i < |s| ==> Astral(s[i])
  {
    if s == [] then 0
    else
      var rest := Utf16Length(s[1..]);
      assert forall i :: 1 <= i < |s| ==> s[i] == s[1..][i - 1];
      (if Astral(s[0]) then 2 else 1) + rest
  }

  /** The checks of renamePet, in source order: empty after trimming first, then the
      length of the untrimmed name in UTF-16 code units; the stored name is the trimmed
      one. */
  function ValidateName(newName: string): (r: Result<string>)
    ensures r.Ok? <==> !AllSpace(newName) && Utf16Length(newName) <= MaxNameLength
    ensures AllSpace(newName) ==> r == Err(EmptyNameMessage)
    ensures !AllSpace(newName) && Utf16Length(newName) > MaxNameLength ==> r == Err(LongNameMessage)
    ensures r.Ok? ==> r.value == Trim(newName) && 0 < |r.value| <= MaxNameLength
  {
    TrimEmptyIffAllSpace(newName);
    if |Trim(newName)| == 0 then Err(EmptyNameMessage)
    else if Utf16Length(newName) > MaxNameLength then Err(LongNameMessage)
    else Ok(Trim(newName))
  }

  /** Forty emoji are forty characters but eighty UTF-16 code units, so the name is
      refused as too long. */
  lemma FortyEmojiTooLong()
    ensures ValidateName(seq(40, _ => '\U{1F600}')) == Err(LongNameMessage)
  {
    var name := seq(40, _ => '\U{1F600}');
    assert !AllSpace(name) by { assert !IsJsSpace(name[0]); }
    assert Utf16Length(name) == 80;
  }

  /** renamePet: stores the trimmed name (an update that matches no row changes nothing
      and still reports success). */
  method RenamePet(db: GameDb, petId: int, newName: string) returns (r: Result<string>)
    requires db.Valid()
    modifies db`pets
    ensures db.Valid()
    ensures ValidateName(newName).Err? ==> r == ValidateName(newName) && db.pets == old(db.pets)
    ensures ValidateName(newName).Ok? ==> r == Ok("宠物名字已修改")
    ensures ValidateName(newName).Ok? && petId in old(db.pets) ==>
              db.pets == old(db.pets)[petId := old(db.pets)[petId].(name := ValidateName(newName).value)]
    ensures petId !in old(db.pets) ==> db.pets == old(db.pets)
  {
    var checked := ValidateName(newName);
    if checked.Err? {
      return Err(checked.message);
    }
    if petId in db.pets {
      db.RewritePet(petId, db.pets[petId].(name := checked.value));
    }
    r := Ok("宠物名字已修改");
  }

  /** The two accepted MIME types and their file extensions. */
  function ImageExtension(mimeType: string): (r: Option<string>)
    ensures r.Some? <==> mimeType == "image/jpeg" || mimeType == "image/png"
    ensures r == Some("jpg") <==> mimeType == "image/jpeg"
    ensures r == Some("png") <==> mimeType == "image/png"
  {
    if mimeType == "image/jpeg" then Some("jpg")
    else if mimeType == "image/png" then Some("png")
    else None
  }

  /** The storage key `pets/<petId>-<now>.<ext>`. */
  function ImageKey(petId: int, now: int, ext: string): string
  {
    StorageKey(IntToString(petId) + "-" + IntToString(now), ext)
  }

  function StorageKey(stem: string, ext: string): string
  {
    "pets/" + stem + "." + ext
  }

  lemma StorageKeyShape(stem: string, ext: string)
    requires |ext| == 3
    ensures var key := StorageKey(stem, ext); |key| > 4 && key[|key| - 4..] == "." + ext && key[..5] == "pets/"
  {
    assert StorageKey(stem, ext) == ("pets/" + stem) + ("." + ext);
  }

  /** Where the picture was stored and the URL the store handed back. */
  datatype Upload = Upload(fileKey: string, imageUrl: string)

  /** uploadPetImage: only JPEG and PNG pass; the key's extension follows the MIME
      type; the pet's imageUrl becomes the stored URL. */
  method UploadPetImage(db: GameDb, petId: int, mimeType: string, now: int, storedUrl: string)
    returns (r: Result<Upload>)
    requires db.Valid()
    modifies db`pets
    ensures db.Valid()
    ensures ImageExtension(mimeType).None? ==> r == Err(BadImageMessage) && db.pets == old(db.pets)
    ensures ImageExtension(mimeType).Some? ==>
              r == Ok(Upload(ImageKey(petId, now, ImageExtension(mimeType).value), storedUrl))
    ensures ImageExtension(mimeType).Some? && petId in old(db.pets) ==>
              db.pets == old(db.pets)[petId := old(db.pets)[petId].(imageUrl := Some(storedUrl))]
    ensures petId !in old(db.pets) ==> db.pets == old(db.pets)
  {
    var ext := ImageExtension(mimeType);
    if ext.None? {
      return Err(BadImageMessage);
    }
    var fileKey := ImageKey(petId, now, ext.value);
    if petId in db.pets {
      db.RewritePet(petId, db.pets[petId].(imageUrl := Some(storedUrl)));
    }
    r := Ok(Upload(fileKey, storedUrl));
  }

  /** The key of an accepted upload ends in ".jpg" for JPEG and ".png" for PNG. */
  lemma ImageKeyExtension(petId: int, now: int, mimeType: string)
    requires ImageExtension(mimeType).Some?
    ensures var key := ImageKey(petId, now, ImageExtension(mimeType).value);
            |key| > 4 && key[..5] == "pets/" && (key[|key| - 4..] == ".jpg" <==> mimeType == "image/jpeg")
            && (key[|key| - 4..] == ".png" <==> mimeType == "image/png")
  {
    StorageKeyShape(IntToString(petId) + "-" + IntToString(now), ImageExtension(mimeType).value);
    assert ".jpg"[1] != ".png"[1];
  }

  /** getPetInfo */
  function PetInfo(pets: map<int, Pet>, petId: int): (r: Result<Pet>)
    ensures r.Ok? <==> petId in pets
    ensures r.Ok? ==> r.value == pets[petId]
    ensures r.Err? ==> r.message == NoPetMessage
  {
    if petId in pets then Ok(pets[petId]) else Err(NoPetMessage)
  }

  /** The default MP increase of increasePetMp. */
  const DefaultMpIncrease: int := 10

  /** increasePetMp: maxMp grows by the increase and mp is refilled to the new maximum. */
  method IncreasePetMp(db: GameDb, petId: int, mpIncrease: int) returns (r: Result<int>)
    requires db.Valid()
    modifies db`pets
    ensures db.Valid()
    ensures petId !in old(db.pets) ==> r == Err(NoPetMessage) && db.pets == old(db.pets)
    ensures petId in old(db.pets) ==>
              var p := old(db.pets)[petId];
              r == Ok(p.maxMp + mpIncrease) && db.pets == old(db.pets)[petId := p.(maxMp := p.maxMp + mpIncrease, mp := p.maxMp + mpIncrease)]
  {
    var info := PetInfo(db.pets, petId);
    if info.Err? {
      return Err(info.message);
    }
    var pet := info.value;
    var newMaxMp := pet.maxMp + mpIncrease;
    db.RewritePet(petId, pet.(maxMp := newMaxMp, mp := newMaxMp));
    r := Ok(newMaxMp);
  }

  /** The MP after restoring: mp + restore, capped at maxMp. */
  function RestoredMp(mp: int, restore: int, maxMp: int): (r: int)
  {
    Min(mp + restore, maxMp)
  }

  /** Restoring never exceeds the maximum, gives back exactly the amount while there is
      room, and from mp <= maxMp never lowers mp when the amount is non-negative. */
  lemma RestoredMpBounds(mp: int, restore: int, maxMp: int)
    ensures RestoredMp(mp, restore, maxMp) <= maxMp
    ensures mp + restore <= maxMp ==> RestoredMp(mp, restore, maxMp) == mp + restore
    ensures mp <= maxMp && restore >= 0 ==> mp <= RestoredMp(mp, restore, maxMp)
  {
  }

  /** The MP after paying `cost`, or the refusal when mp < cost. */
  function ConsumedMp(mp: int, cost: int): (r: Result<int>)
    ensures r.Ok? <==> mp >= cost
    ensures r.Err? ==> r.message == LowMpMessage
    ensures r.Ok? ==> r.value >= 0 && r.value + cost == mp
  {
    if mp < cost then Err(LowMpMessage) else Ok(mp - cost)
  }

  /** Paying an amount and then restoring it returns a pet to the MP it had. */
  lemma ConsumeThenRestore(mp: int, cost: int, maxMp: int)
    requires mp <= maxMp && ConsumedMp(mp, cost).Ok?
    ensures RestoredMp(ConsumedMp(mp, cost).value, cost, maxMp) == mp
  {
  }

  /** restorePetMp */
  method RestorePetMp(db: GameDb, petId: int, mpRestore: int) returns (r: Result<int>)
    requires db.Valid()
    modifies db`pets
    ensures db.Valid()
    ensures petId !in old(db.pets) ==> r == Err(NoPetMessage) && db.pets == old(db.pets)
    ensures petId in old(db.pets) ==>
              var p := old(db.pets)[petId];
              r == Ok(RestoredMp(p.mp, mpRestore, p.maxMp))
              && db.pets == old(db.pets)[petId := p.(mp := RestoredMp(p.mp, mpRestore, p.maxMp))]
  {
    var info := PetInfo(db.pets, petId);
    if info.Err? {
      return Err(info.message);
    }
    var pet := info.value;
    var newMp := RestoredMp(pet.mp, mpRestore, pet.maxMp);
    db.RewritePet(petId, pet.(mp := newMp));
    r := Ok(newMp);
  }

  /** consumePetMp: refuses without writing when mp < cost. */
  method ConsumePetMp(db: GameDb, petId: int, mpCost: int) returns (r: Result<int>)
    requires db.Valid()
    modifies db`pets
    ensures db.Valid()
    ensures petId !in old(db.pets) ==> r == Err(NoPetMessage) && db.pets == old(db.pets)
    ensures petId in old(db.pets) ==> r == ConsumedMp(old(db.pets)[petId].mp, mpCost)
    ensures r.Err? ==> db.pets == old(db.pets)
    ensures petId in old(db.pets) && r.Ok? ==>
              db.pets == old(db.pets)[petId := old(db.pets)[petId].(mp := r.value)]
  {
    var info := PetInfo(db.pets, petId);
    if info.Err? {
      return Err(info.message);
    }
    var pet := info.value;
    r := ConsumedMp(pet.mp, mpCost);
    if r.Ok? {
      db.RewritePet(petId, pet.(mp := r.value));
    }
  }
}
