/**
 * The colour and marker assignment done by the loops of `DataMap.__init__`
 * (components.py:166-181).
 */
module Styles {

  /** `Bokeh[8]`. */
  const Palette: seq<string> := ["#EC1557", "#F05223", "#F6A91B", "#A5CD39", "#20B254", "#00AAAE", "#4998D3", "#892889"]

  const Markers: seq<string> := ["o", "^", "s", "d", "x", ">", "*", "v", "+", "<"]

  /** Which of the three loops assigns the style. */
  datatype Scheme =
    | CategoryColors(userColors: map<string, string>)
    | CategoryMarkers
    | TransectColors(lastCategory: string)  // `category`, left over from the category loop

  /** The style the loop gives to the `i`-th key. */
  function StyleOf(scheme: Scheme, key: string, i: nat): string {
    match scheme
    case CategoryColors(user) => if key in user then user[key] else Palette[i % |Palette|]
    case CategoryMarkers => Markers[i % |Markers|]
    case TransectColors(last) => Palette[(|last| + i) % |Palette|]
  }

  /** The dictionary after `for i, key in enumerate(keys): d[key] = StyleOf(...)`, starting empty. */
  function Assign(keys: seq<string>, scheme: Scheme): (m: map<string, string>)
    ensures m.Keys == set k | k in keys
    decreases |keys|
  {
    if keys == [] then map[]
    else
      var n := |keys| - 1;
      var m := Assign(keys[..n], scheme);
      assert keys == keys[..n] + [keys[n]];
      m[keys[n] := StyleOf(scheme, keys[n], n)]
  }

  /** For distinct keys, the `i`-th key keeps the style given at index `i`. */
  lemma {:induction false} AssignAt(keys: seq<string>, scheme: Scheme, i: nat)
    requires i < |keys|
    requires forall a, b :: 0 <= a < b < |keys| ==> keys[a] != keys[b]
    ensures Assign(keys, scheme)[keys[i]] == StyleOf(scheme, keys[i], i)
    decreases |keys|
  {
    var n := |keys| - 1;
    if i < n {
      AssignAt(keys[..n], scheme, i);
      assert keys[..n][i] == keys[i] && keys[i] != keys[n];
    }
  }

  /** A user-supplied category colour always wins, whatever the position and repetitions. */
  lemma {:induction false} UserColorWins(keys: seq<string>, user: map<string, string>, c: string)
    requires c in keys && c in user
    ensures Assign(keys, CategoryColors(user))[c] == user[c]
    decreases |keys|
  {
    var n := |keys| - 1;
    if keys[n] != c {
      assert keys == keys[..n] + [keys[n]];
      assert c in keys[..n];
      UserColorWins(keys[..n], user, c);
    }
  }

  /** The three loops for distinct names: category `i` and transect option `j` get the style of their own index. */
  lemma CategoryStyleOfDistinct(categories: seq<string>, user: map<string, string>, i: nat)
    requires i < |categories|
    requires forall a, b :: 0 <= a < b < |categories| ==> categories[a] != categories[b]
    ensures Assign(categories, CategoryColors(user))[categories[i]]
         == (if categories[i] in user then user[categories[i]] else Palette[i % |Palette|])
    ensures Assign(categories, CategoryMarkers)[categories[i]] == Markers[i % |Markers|]
  {
    AssignAt(categories, CategoryColors(user), i);
    AssignAt(categories, CategoryMarkers, i);
  }

  lemma {:induction false} TransectStyleOfDistinct(options: seq<string>, lastCategory: string, j: nat)
    requires j < |options|
    requires forall a, b :: 0 <= a < b < |options| ==> options[a] != options[b]
    ensures Assign(options, TransectColors(lastCategory))[options[j]] == Palette[(|lastCategory| + j) % |Palette|]
    decreases |options|
  {
    var n := |options| - 1;
    if j < n {
      TransectStyleOfDistinct(options[..n], lastCategory, j);
      assert options[..n][j] == options[j] && options[j] != options[n];
    }
  }
}
