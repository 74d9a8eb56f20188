# Module entity of the HRIS backend

This project models the `Module` entity of the HRIS backend. A Module is a navigation
menu entry that belongs to a Service. It is a record with private nullable fields:
`id`, `serviceId`, `service`, `name`, `groupName`, `menuOrder`, `menuDisplay`,
`description`, `iconCls` and `path`. The constructor assigns three defaults. Getters
turn some unset fields into `""`, `1` or `false`. Setters assign one field each. Four
of them store an upper- or lower-cased copy of their argument. `setService` also
copies the service's id into `serviceId`.

The model has two layers:

- `Entity.Module` (module_entity.dfy) is a class with the source's fields. PHP's null
  is `None` of an `Option`. Every setter is a method that lists in its `modifies`
  clause only the fields it assigns, so "modifies only its own field" is checked by
  Dafny. Every getter is a function that reads only its own field. Each setter states
  the stored value, states what the matching getter then returns, and states that
  the whole record afterwards equals `ModuleSpec.Apply` of the record before.
- `ModuleSpec` (module_spec.dfy) holds the record as a value (`ModuleState`). It has
  one `Call` per setter, `Apply` for one call and `Run` for a sequence of calls. The
  lemmas about setters are stated on this layer: which fields a call writes,
  idempotence, the `service`/`serviceId` mirror and how long it survives.

`StringUtil::uppercase` and `StringUtil::lowercase` are called by the setters, but
their code is not part of this model. They are the two functions of a
`StringUtil` value handed to the constructor, and nothing is assumed about them: not
idempotence and not length preservation. A Service appears only as the string its
`getId()` returns.

`getIconCls` also turns null into `""`, through its `(string)` cast
(src/Entity/Module.php:265-268), like `getId`, `getServiceId` and `getGroupName`.

## Model

| member | source | states |
|---|---|---|
| `Entity.Module.constructor` | src/Entity/Module.php:132-137 | iconCls is "windows", menuDisplay is true and menuOrder is 1. Every other field is null, so getId, getServiceId and getGroupName return "" and getService and getDescription return null. The new record satisfies the service/serviceId mirror |
| `Entity.Module.GetId` | src/Entity/Module.php:142-145 | an unset id reads as "", a set id reads as itself |
| `Entity.Module.GetServiceId` | src/Entity/Module.php:150-153 | an unset serviceId reads as "", a set one reads as itself |
| `Entity.Module.SetServiceId` | src/Entity/Module.php:158-161 | stores its argument, null included, and touches no other field; service is left as it was |
| `Entity.Module.GetService` | src/Entity/Module.php:166-169 | returns the stored service reference, null included |
| `Entity.Module.SetService` | src/Entity/Module.php:174-180 | stores the reference. A non-null service also puts its id into serviceId, so getServiceId returns that id. Null leaves serviceId unchanged. No other field changes |
| `Entity.Module.GetName` | src/Entity/Module.php:185-188 | returns the stored name and is defined only once a name is set |
| `Entity.Module.SetName` | src/Entity/Module.php:193-196 | stores uppercase(name), getName then returns it, and no other field changes |
| `Entity.Module.GetGroupName` | src/Entity/Module.php:201-204 | an unset groupName reads as "", a set one reads as itself |
| `Entity.Module.SetGroupName` | src/Entity/Module.php:209-212 | stores uppercase(groupName), getGroupName then returns it, and no other field changes |
| `Entity.Module.GetMenuOrder` | src/Entity/Module.php:217-220 | an unset menuOrder reads as 1, a set one reads as itself |
| `Entity.Module.SetMenuOrder` | src/Entity/Module.php:225-228 | stores the order, getMenuOrder then returns it, and no other field changes |
| `Entity.Module.IsMenuDisplay` | src/Entity/Module.php:233-236 | true exactly when menuDisplay is set to true, so unset reads as false |
| `Entity.Module.SetMenuDisplay` | src/Entity/Module.php:241-244 | stores the flag, isMenuDisplay then returns it, and no other field changes |
| `Entity.Module.GetDescription` | src/Entity/Module.php:249-252 | returns the stored description, null included |
| `Entity.Module.SetDescription` | src/Entity/Module.php:257-260 | stores the description without normalisation, getDescription then returns it, and no other field changes |
| `Entity.Module.GetIconCls` | src/Entity/Module.php:265-268 | an unset iconCls reads as "", a set one reads as itself |
| `Entity.Module.SetIconCls` | src/Entity/Module.php:273-276 | stores lowercase(iconCls), getIconCls then returns it, and no other field changes |
| `Entity.Module.GetPath` | src/Entity/Module.php:281-284 | returns the stored path and is defined only once a path is set |
| `Entity.Module.SetPath` | src/Entity/Module.php:289-292 | stores lowercase(path), getPath then returns it, and no other field changes |
| `ModuleSpec.Initial` | src/Entity/Module.php:132-137 | the record the constructor leaves: iconCls "windows", menuDisplay true, menuOrder 1, every other field null. It satisfies the mirror, the base case for RunKeepsMirror |
| `ModuleSpec.Apply` | src/Entity/Module.php:158-292 | the effect of one setter call, defined by cases, one per setter. Its contract states the frame: every field outside Written(c) is unchanged. Its other properties are the ModuleSpec lemmas below |
| `ModuleSpec.Written` | src/Entity/Module.php:158-292 | the fields a setter assigns, defined by cases, one per setter. No setter writes id. serviceId is written exactly by setServiceId and by setService with a service. service is written exactly by setService. The frame lemmas below are stated against it |
| `ModuleSpec.ApplyWritesArgumentOnly` | src/Entity/Module.php:158-292 | the value a setter writes depends only on its argument and not on the earlier state |
| `ModuleSpec.ApplyIdempotent` | src/Entity/Module.php:158-292 | calling a setter twice with the same argument has the effect of one call |
| `ModuleSpec.SetServiceMirrors` | src/Entity/Module.php:174-180 | after setService with a service, service is that service and serviceId is its id, whatever the state was before |
| `ModuleSpec.SetServiceNullKeepsServiceId` | src/Entity/Module.php:174-180 | setService(null) clears service and keeps serviceId |
| `ModuleSpec.SetServiceOverridesServiceId` | src/Entity/Module.php:158-180 | setServiceId followed by setService with a service equals setService alone |
| `ModuleSpec.SetServiceIdAfterService` | src/Entity/Module.php:158-180 | setService with a service followed by setServiceId keeps the explicit serviceId, and service stays |
| `ModuleSpec.SetServiceAndServiceIdDoNotCommute` | src/Entity/Module.php:158-180 | unless the explicit value is the service's id, the two orders of setService and setServiceId give different records |
| `ModuleSpec.ApplyKeepsMirror` | src/Entity/Module.php:158-292 | every setter except setServiceId keeps serviceId equal to the service's id when a service is set |
| `ModuleSpec.SetServiceIdMirror` | src/Entity/Module.php:158-161 | setServiceId keeps the mirror if and only if no service is set or the value written is that service's id |
| `ModuleSpec.RunKeepsMirror` | src/Entity/Module.php:158-292 | any sequence of setter calls without setServiceId keeps the service/serviceId mirror |
| `ModuleSpec.RunFrame` | src/Entity/Module.php:158-292 | a field that no call in a sequence writes ends as it started |
| `ModuleSpec.RunKeepsId` | src/Entity/Module.php:132-292 | no sequence of calls changes id, because neither the constructor nor any setter assigns it |

## Left out

- The response subscriber that adds the `X-Backend` header is not modelled. It resolves the host name, which is DNS I/O, and the rest is event-dispatch wiring.
- ORM and API-resource annotations are not modelled: the table and index mapping, UUID generation for `id`, serialization groups and filters. In the model `id` is assigned by no method, and only its getter is modelled.
- Validation constraints are not modelled: not-blank on serviceId, name, groupName, menuOrder, iconCls and path, and uniqueness of name and path. The framework's validator enforces them, not the setters, and uniqueness needs the database.
- The action-logger, timestamp and soft-delete traits are not modelled. Their code is not part of this model.
- The bodies of `StringUtil::uppercase` and `StringUtil::lowercase` are not modelled. They are opaque functions supplied to the constructor.
- Entity.Module.GetName: reading an unset name makes PHP raise a TypeError because the return type is non-nullable. The model makes a set name a precondition and does not model that error.
- Entity.Module.GetPath: the same holds for an unset path.
- Entity.Module.SetMenuOrder: PHP integers are 64-bit. The model uses unbounded integers, which changes nothing because the value is stored and returned as given.
- Services are values that carry an id. Sharing one service object among several modules, and later changes to that object, are not modelled.
