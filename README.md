# Connectors: the base connector of the egon pipeline framework

egon builds data pipelines out of nodes joined by connectors. A connector is an
endpoint owned by a node; output connectors send data and input connectors
receive it. This project models the base connector class that both kinds build
on (`egon/connectors.py`): a connector has an identity token, a name that
defaults to that identity, a reference to its parent node (unset when the
connector is created) and an ordered list of partner connectors. It offers
read-only views of that state: the parent node, a snapshot of the partners,
whether any partner exists, and a diagnostic string.

The model is the module `Connectors` in `connectors.dfy`:

- `BaseConnector` is a class whose fields are the source's attributes: `id`
  (the identity token, a `const`), `name`, `node` (a nullable reference to the
  node) and `connectedPartners` (a `seq<BaseConnector>`).
- The constructor takes the optional name as an `Option<string>`. It also takes
  the identity string that the runtime would derive from the object's address.
- `ParentNode`, `Partners`, `IsConnected` and `ToString` are functions that
  read the object and change nothing.
- `ToString` renders the connector's own class name, name and identity, and
  nothing of the parent node. The docstring of `__str__` speaks of "the name of
  the parent instance", but the code renders the connector itself, and the
  model follows the code.
- `Partners` returns a `seq`, which is a value. Like the tuple the source
  returns, it is a copy: later changes to the connector's list cannot alter it.
- `Display` is the display format itself, independent of any object. With identities of the runtime's shape and under a given class name, the display string determines the name and the identity. Across class names it does not: a class name may itself contain `(name=`.

## Model

| member | source | states |
|---|---|---|
| `Connectors.BaseConnector.constructor` | egon/connectors.py:16-34 | the identity is the one supplied; without a name the name equals the identity, with a name (even an empty one) it is exactly that name; the new connector has no parent node, an empty partner list, and is not connected |
| `Connectors.BaseConnector.ParentNode` | egon/connectors.py:36-40 | returns the stored parent reference, null before the connector is assigned to a node; it is a read-only view |
| `Connectors.BaseConnector.Partners` | egon/connectors.py:42-46 | the snapshot has the same length as the internal partner list and the same connector at every position, so order is kept; it is a value, not a live view |
| `Connectors.BaseConnector.IsConnected` | egon/connectors.py:48-51 | true exactly when the partner snapshot is non-empty |
| `Connectors.Display` | egon/connectors.py:56 | the display string has length of the three fields plus 20; it starts with `<`, the class name and `(name=`, then holds the name, then `) object at `, then the identity, and ends with `>` |
| `Connectors.BaseConnector.ToString` | egon/connectors.py:53-56 | the diagnostic string of a connector is the display format applied to its runtime class name, its current name and its identity |
| `Connectors.DisplayDistinguishesNames` | egon/connectors.py:56 | for a fixed class name and identity, two display strings are equal exactly when the names are equal, so renaming a connector changes its display string |
| `Connectors.DisplayDeterminesFields` | egon/connectors.py:56 | for identities of the shape `hex(id(self))` produces (`0x` and lower-case hexadecimal digits), the display string under a given class name determines both the name and the identity |
| `Connectors.SeparatorSpaceInsideLongerIdentity` | egon/connectors.py:56 | a display whose identity is shorter than a runtime-shaped identity differs from it, because the space ending `) object at ` would fall inside the identity, which holds no space |

## Left out

- The identity is derived from the object's memory address (`hex(id(self))`). The model takes it as a string given to the constructor. Only `DisplayDeterminesFields` and its helper `SeparatorSpaceInsideLongerIdentity` use its shape (`0x` and hexadecimal digits, `IsHexIdentity`); which address it encodes, and that live connectors have distinct identities, are not modelled.
- The runtime class name (`self.__class__.__name__`) comes from reflection. `ToString` takes it as a parameter.
- The node class is not part of this model. `Node` is an empty class, so the connector only holds a reference to it.
- The `Input` and `Output` connectors named in the module comment are not in `egon/connectors.py`. The same holds for connecting, disconnecting, sending and receiving, so none of them is modelled.
- Nothing in the base class assigns the parent node or changes the partner list after construction. The model has no operation that does either.
- Python lets a caller pass a non-string object as `name`. The model takes names to be strings.
